/** What each message does to the desktop app's state, as functions on values. Class `App` carries
    the same steps out on its fields; everything proved about runs is proved about these functions. */
module AppModel {
  import opened NinoxTypes
  import opened Sorting

  const MAX_NOTIFICATIONS := 50

  datatype Panel = TerminalPanel | DiffPanel | SplitPanel | OtherPanel

  datatype View =
    | FleetBoard(scope: Option<SessionId>)
    | SessionDetail(sid: SessionId, panel: Panel)
    | PrList
    | Brain
    | Workers
    | Settings

  /** An emulator seen from outside: the bytes it was given, hydration first, and the history pages
      and recovery tokens handed to it. */
  datatype Terminal = Terminal(log: Bytes, pages: seq<Bytes>, recoveries: seq<nat>)

  /** One attachment: the session it shows and the generation it was given. */
  datatype ClientId = ClientId(sid: SessionId, generation: nat)

  /** The app's fields other than its emulators. `clients` maps a session to the generation of its attached
      client; `reattaches` is history only, the automatic reattach tasks issued so far. */
  datatype Core = Core(
    orchestrators: seq<Orchestrator>,
    sessions: map<SessionId, Session>,
    clients: map<SessionId, nat>,
    diffs: map<SessionId, Option<string>>,
    unread: map<SessionId, nat>,
    view: View,
    workerPanel: Panel,
    reattachAttempted: set<SessionId>,
    nextGeneration: nat,
    reattaches: seq<SessionId>,
    prs: map<PrId, Pr>,
    ciStatus: map<PrId, string>,
    reviewThreads: map<PrId, seq<Comment>>,
    commentEditors: map<int, string>,
    notifications: seq<Notification>)
  {
    predicate Viewing(sid: SessionId) {
      view.SessionDetail? && view.sid == sid
    }

    /** The client on record for `sid` is the one of generation `g`. */
    predicate Current(sid: SessionId, g: nat) {
      sid in clients && clients[sid] == g
    }
  }

  /** `transcripts` is history only: every byte an attachment's emulator was ever given after hydration, kept when
      the emulator is gone. */
  datatype AppState = AppState(core: Core, terminals: map<SessionId, Terminal>, transcripts: map<ClientId, Bytes>)
  {
    /** Output of client `g` of `sid` reaches an emulator. */
    predicate Shown(sid: SessionId, g: nat) {
      core.Current(sid, g) && sid in terminals
    }

    function Transcript(k: ClientId): Bytes {
      if k in transcripts then transcripts[k] else []
    }
  }

  const EMPTY := AppState(
    Core([], map[], map[], map[], map[], FleetBoard(None), SplitPanel, {}, 0, [], map[], map[], map[], map[], []),
    map[], map[])

  datatype Message =
    | EngineEvent(event: Event)
    | EngineEvents(events: seq<Event>)
    | NavigateFleet(scope: Option<SessionId>)
    | NavigateSession(sid: SessionId)
    | NavigatePrList
    | NavigateWorkers
    | NavigateBrain
    | NavigateSettings
    | SwitchDetailPanel(panel: Panel)
    | ShowSpawned(session: Session)
    | DetachForRespawn(sid: SessionId)
    | RemoveOrchestrator(orchId: SessionId)
    | RemoveSession(sid: SessionId)
    | DiscardFailedSpawn(sid: SessionId, startedAt: int)
    | ClientAttach(sid: SessionId, initialTail: Option<Bytes>, spawnSucceeds: bool)
    | RecoverTerminalOutput(sid: SessionId, generation: nat, token: nat)
    | HistoryFetched(sid: SessionId, generation: nat, page: Bytes)
    | DiffFetched(sid: SessionId, diff: Option<string>)
    | PollSessions(dbSessions: seq<Session>, dbOrchestrators: seq<Orchestrator>)

  // ---------------------------------------------------------------- engine events

  function MergeFrom(known: Session, incoming: Session, fields: SessionFields): Session {
    match fields
    case AllFields => incoming
    case Fields(gs) =>
      known.(
        status := if StatusField in gs then incoming.status else known.status,
        gate := if GateField in gs then incoming.gate else known.gate,
        prNumber := if PrLinkField in gs then incoming.prNumber else known.prNumber,
        prId := if PrLinkField in gs then incoming.prId else known.prId,
        repo := if PrLinkField in gs then incoming.repo else known.repo,
        cost := if CostField in gs then incoming.cost else known.cost,
        context := if ContextField in gs then incoming.context else known.context,
        terminalAt := if TerminalAtField in gs then incoming.terminalAt else known.terminalAt,
        mergedAt := if MergedAtField in gs then incoming.mergedAt else known.mergedAt,
        pid := if PidField in gs then incoming.pid else known.pid,
        workspacePath := if WorkspaceField in gs then incoming.workspacePath else known.workspacePath,
        model := if ModelField in gs then incoming.model else known.model,
        activity := if ActivityField in gs then incoming.activity else known.activity)
  }

  predicate KnowsOrchestrator(orchs: seq<Orchestrator>, id: SessionId) {
    exists i :: 0 <= i < |orchs| && orchs[i].id == id
  }

  function AddOrchestrator(orchs: seq<Orchestrator>, o: Orchestrator): seq<Orchestrator> {
    if KnowsOrchestrator(orchs, o.id) then orchs else orchs + [o]
  }

  /** The entries of `m` whose key is in `keep`. */
  function Retain<T>(m: map<SessionId, T>, keep: set<SessionId>): map<SessionId, T> {
    map sid | sid in m && sid in keep :: m[sid]
  }

  lemma MinusNothing<T>(m: map<SessionId, T>)
    ensures m - {} == m
  {
  }

  function WithoutOrchestrator(orchs: seq<Orchestrator>, id: SessionId): seq<Orchestrator> {
    Filter((o: Orchestrator) => o.id != id, orchs)
  }

  /** The sessions that are owned by `orch`. */
  function WorkersOf(sessions: map<SessionId, Session>, orch: SessionId): set<SessionId> {
    set sid | sid in sessions && sessions[sid].orchestratorId == Some(orch)
  }

  function OrchestratorGone(c: Core, id: SessionId): Core {
    c.(
      orchestrators := WithoutOrchestrator(c.orchestrators, id),
      unread := c.unread - ({id} + WorkersOf(c.sessions, id)),
      sessions := c.sessions - WorkersOf(c.sessions, id))
  }

  function FinishSession(c: Core, sid: SessionId): Core {
    c.(
      sessions := if sid in c.sessions then c.sessions[sid := c.sessions[sid].(status := Done)] else c.sessions,
      unread := c.unread - {sid},
      clients := c.clients - {sid},
      diffs := c.diffs - {sid})
  }

  /** Forgets the client that shows `sid`, and its diff. */
  function Detach(c: Core, sid: SessionId): Core {
    c.(clients := c.clients - {sid}, diffs := c.diffs - {sid})
  }

  /** A dying client that is on screen is reattached once; after that its session waits for the user. */
  function ReattachOnce(c: Core, sid: SessionId): Core {
    if c.Viewing(sid) && sid !in c.reattachAttempted
    then c.(reattachAttempted := c.reattachAttempted + {sid}, reattaches := c.reattaches + [sid])
    else c
  }

  function CommentKey(c: Comment): Key {
    Key(0, c.createdAt)
  }

  predicate HasComment(thread: seq<Comment>, id: int) {
    exists i :: 0 <= i < |thread| && thread[i].id == id
  }

  function AddComment(thread: seq<Comment>, c: Comment): seq<Comment> {
    if HasComment(thread, c.id) then thread else StableSort(CommentKey, thread + [c])
  }

  /** The threads and editor buffers that the stored comments give at startup. */
  function LoadedThreads(db: seq<Comment>): map<PrId, seq<Comment>> {
    if db == [] then map[]
    else
      var threads, c := LoadedThreads(db[..|db| - 1]), db[|db| - 1];
      threads[c.prId := (if c.prId in threads then threads[c.prId] else []) + [c]]
  }

  function LoadedEditors(db: seq<Comment>): map<int, string> {
    if db == [] then map[] else LoadedEditors(db[..|db| - 1])[db[|db| - 1].id := db[|db| - 1].body]
  }

  function HandleComment(c: Core, prId: PrId, comment: Comment): Core {
    var thread := if prId in c.reviewThreads then c.reviewThreads[prId] else [];
    c.(
      reviewThreads := c.reviewThreads[prId := AddComment(thread, comment)],
      commentEditors :=
        if HasComment(thread, comment.id) then c.commentEditors else c.commentEditors[comment.id := comment.body])
  }

  function PushNotification(ns: seq<Notification>, n: Notification): seq<Notification> {
    var pushed := ns + [n];
    if |pushed| > MAX_NOTIFICATIONS then pushed[1..] else pushed
  }

  /** An event's effect on everything but the emulators, which it never looks at. */
  function HandleCore(c: Core, e: Event): Core {
    match e
    case OrchestratorSpawned(o) => c.(orchestrators := AddOrchestrator(c.orchestrators, o))
    case OrchestratorRemoved(id) => OrchestratorGone(c, id)
    case SessionSpawned(s) => c.(sessions := c.sessions[s.id := s])
    case SessionUpdated(s, fields) =>
      c.(sessions := c.sessions[s.id := if s.id in c.sessions then MergeFrom(c.sessions[s.id], s, fields) else s])
    case SessionDone(sid) => FinishSession(c, sid)
    case TerminalOutput(_, _) => c
    case ClientOutput(_, _, _) => c
    case ClientClosed(sid, g) => if c.Current(sid, g) then ReattachOnce(Detach(c, sid), sid) else c
    case CiUpdated(prId, ci) => c.(ciStatus := c.ciStatus[prId := ci])
    case PrOpened(sid, pr) =>
      c.(
        sessions :=
          if sid in c.sessions
          then c.sessions[sid := c.sessions[sid].(prNumber := Some(pr.number), prId := Some(pr.id))]
          else c.sessions,
        prs := c.prs[pr.id := pr])
    case ExtraPrDetected(pr) => c.(prs := c.prs[pr.id := pr])
    case ReviewComment(prId, comment) => HandleComment(c, prId, comment)
    case Notified(n) => c.(notifications := PushNotification(c.notifications, n))
    case MessagesDelivered(sid, count) =>
      if c.Viewing(sid) then c
      else c.(unread := c.unread[sid := (if sid in c.unread then c.unread[sid] else 0) + count])
  }

  /** The emulators an event takes away. */
  function ClosedBy(c: Core, e: Event): set<SessionId> {
    if (e.ClientClosed? && c.Current(e.sid, e.generation)) || e.SessionDone? then {e.sid} else {}
  }

  function HandleEvent(st: AppState, e: Event): AppState {
    if e.ClientOutput? then HandleOutput(st, e.sid, e.generation, e.bytes)
    else AppState(HandleCore(st.core, e), st.terminals - ClosedBy(st.core, e), st.transcripts)
  }

  function HandleOutput(st: AppState, sid: SessionId, g: nat, bytes: Bytes): AppState {
    if !st.Shown(sid, g) then st
    else st.(
        terminals := st.terminals[sid := st.terminals[sid].(log := st.terminals[sid].log + bytes)],
        transcripts := st.transcripts[ClientId(sid, g) := st.Transcript(ClientId(sid, g)) + bytes])
  }

  /** Only output, a close and the end of a session concern emulators. */
  lemma RecordsTouchNoEmulator(st: AppState, e: Event)
    requires !e.SessionDone? && !e.ClientOutput? && !e.ClientClosed?
    ensures HandleEvent(st, e) == AppState(HandleCore(st.core, e), st.terminals, st.transcripts)
  {
    MinusNothing(st.terminals);
  }

  function HandleEvents(st: AppState, es: seq<Event>): AppState
    decreases |es|
  {
    if es == [] then st else HandleEvents(HandleEvent(st, es[0]), es[1..])
  }

  // ---------------------------------------------------------------- polling the store

  /** Whether a poll overwrites a tracked session whose status is `known`. */
  predicate AdoptsTerminalStatus(known: Status, fromStore: Status) {
    fromStore.IsTerminal() && fromStore != known
  }

  function AddOrchestrators(orchs: seq<Orchestrator>, db: seq<Orchestrator>): seq<Orchestrator>
    decreases |db|
  {
    if db == [] then orchs else AddOrchestrators(AddOrchestrator(orchs, db[0]), db[1..])
  }

  predicate InStore(db: seq<Session>, sid: SessionId) {
    exists i :: 0 <= i < |db| && db[i].id == sid
  }

  function AdoptSession(sessions: map<SessionId, Session>, s: Session): map<SessionId, Session> {
    if s.id !in sessions || AdoptsTerminalStatus(sessions[s.id].status, s.status)
    then sessions[s.id := s]
    else sessions
  }

  function AdoptSessions(sessions: map<SessionId, Session>, db: seq<Session>): map<SessionId, Session>
    decreases |db|
  {
    if db == [] then sessions else AdoptSessions(AdoptSession(sessions, db[0]), db[1..])
  }

  /** The in-memory sessions that the store no longer has and that are no orchestrator. */
  function Vanished(sessions: map<SessionId, Session>, db: seq<Session>, orchs: seq<Orchestrator>): set<SessionId> {
    set sid | sid in sessions && !InStore(db, sid) && !KnowsOrchestrator(orchs, sid)
  }

  /** A session without a workspace has no diff; otherwise a task fetches it. */
  function EnsureDiff(c: Core, sid: SessionId): Core {
    if sid in c.sessions && c.sessions[sid].workspacePath.Some? then c
    else c.(diffs := c.diffs[sid := None])
  }

  function RefreshDiff(c: Core): Core {
    if c.view.SessionDetail? && c.view.panel.DiffPanel? then EnsureDiff(c, c.view.sid) else c
  }

  /** The sessions a poll drops. */
  function Gone(c: Core, db: seq<Session>, dbOrchs: seq<Orchestrator>): set<SessionId> {
    Vanished(c.sessions, db, AddOrchestrators(c.orchestrators, dbOrchs))
  }

  function Poll(c: Core, db: seq<Session>, dbOrchs: seq<Orchestrator>): Core {
    var gone := Gone(c, db, dbOrchs);
    RefreshDiff(c.(
      orchestrators := AddOrchestrators(c.orchestrators, dbOrchs),
      sessions := AdoptSessions(c.sessions - gone, db),
      diffs := c.diffs - gone))
  }

  // ---------------------------------------------------------------- messages

  /** The session comes on screen, read, without any client, and every session may be reattached again. */
  function Open(c: Core, sid: SessionId): Core {
    c.(view := SessionDetail(sid, c.workerPanel), unread := c.unread - {sid}, clients := map[], reattachAttempted := {})
  }

  function Navigate(c: Core, sid: SessionId): Core {
    if c.workerPanel.DiffPanel? then EnsureDiff(Open(c, sid), sid) else Open(c, sid)
  }

  function SwitchPanel(c: Core, panel: Panel): Core {
    if !c.view.SessionDetail? then c
    else
      var switched := c.(view := SessionDetail(c.view.sid, panel), workerPanel := panel);
      if panel.DiffPanel? then EnsureDiff(switched, c.view.sid) else switched
  }

  /** Leaves the board or the session of an orchestrator. */
  function LeaveView(c: Core, id: SessionId): Core {
    if c.Viewing(id) || c.view == FleetBoard(Some(id)) then c.(view := FleetBoard(None)) else c
  }

  function DropFleet(c: Core, id: SessionId): Core {
    c.(orchestrators := WithoutOrchestrator(c.orchestrators, id),
       sessions := c.sessions - ({id} + WorkersOf(c.sessions, id)))
  }

  /** Only the sessions that are left keep clients and diffs. */
  function KeepKnown(c: Core, id: SessionId): Core {
    c.(clients := Retain(c.clients, c.sessions.Keys), diffs := Retain(c.diffs - {id}, c.sessions.Keys))
  }

  function DropOrchestrator(c: Core, id: SessionId): Core {
    KeepKnown(DropFleet(LeaveView(c, id), id), id)
  }

  function DropSession(c: Core, sid: SessionId): Core {
    Detach(c, sid).(
      view := if c.Viewing(sid) then FleetBoard(None) else c.view,
      sessions := c.sessions - {sid})
  }

  /** The failed spawn still is the session on record. */
  predicate IsFailedSpawn(c: Core, sid: SessionId, startedAt: int) {
    sid in c.sessions && c.sessions[sid].startedAt == startedAt
  }

  /** Neither engine events nor something for an attached client. */
  predicate IsPlain(m: Message) {
    && !m.EngineEvent? && !m.EngineEvents? && !m.ClientAttach? && !m.RecoverTerminalOutput? && !m.HistoryFetched?
  }

  /** The messages that take no emulator away and ask the store nothing. */
  predicate OnlyNavigates(m: Message) {
    m.NavigateFleet? || m.NavigatePrList? || m.NavigateWorkers? || m.NavigateBrain? || m.NavigateSettings?
    || m.SwitchDetailPanel? || m.ShowSpawned? || m.DiffFetched?
  }

  /** A message's effect on everything but the emulators, which it never looks at. Attaching a client is apart. */
  function ApplyCore(c: Core, m: Message): Core {
    match m
    case NavigateFleet(scope) => c.(view := FleetBoard(scope), clients := map[])
    case NavigateSession(sid) => Navigate(c, sid)
    case NavigatePrList => c.(view := PrList, clients := map[])
    case NavigateWorkers => c.(view := Workers, clients := map[])
    case NavigateBrain => c.(view := Brain)
    case NavigateSettings => c.(view := Settings)
    case SwitchDetailPanel(panel) => SwitchPanel(c, panel)
    case ShowSpawned(s) => c.(sessions := c.sessions[s.id := s], view := SessionDetail(s.id, TerminalPanel))
    case DetachForRespawn(sid) => Detach(c, sid)
    case RemoveOrchestrator(id) => DropOrchestrator(c, id)
    case RemoveSession(sid) => DropSession(c, sid)
    case DiscardFailedSpawn(sid, startedAt) =>
      if IsFailedSpawn(c, sid, startedAt) then Detach(c, sid).(sessions := c.sessions - {sid}) else c
    case DiffFetched(sid, diff) => c.(diffs := c.diffs[sid := diff])
    case PollSessions(db, dbOrchs) => Poll(c, db, dbOrchs)
    case _ => c
  }

  /** The emulators a message takes away. */
  function RemovedBy(c: Core, m: Message): set<SessionId> {
    match m
    case NavigateSession(sid) => {sid}
    case DetachForRespawn(sid) => {sid}
    case RemoveOrchestrator(id) => {id}
    case RemoveSession(sid) => {sid}
    case DiscardFailedSpawn(sid, startedAt) => if IsFailedSpawn(c, sid, startedAt) then {sid} else {}
    case PollSessions(db, dbOrchs) => Gone(c, db, dbOrchs)
    case _ => {}
  }

  function TailBytes(tail: Option<Bytes>): Bytes {
    if tail.Some? then tail.value else []
  }

  function Attach(st: AppState, sid: SessionId, tail: Option<Bytes>, spawnSucceeds: bool): AppState {
    var c := st.core;
    if !c.Viewing(sid) || sid in c.clients then st
    else
      var numbered := c.(nextGeneration := c.nextGeneration + 1);
      if !spawnSucceeds then st.(core := numbered)
      else st.(
          core := numbered.(clients := c.clients[sid := c.nextGeneration]),
          terminals := st.terminals[sid := Terminal(TailBytes(tail), [], [])])
  }

  function Recover(st: AppState, sid: SessionId, g: nat, token: nat): AppState {
    if st.Shown(sid, g)
    then st.(terminals := st.terminals[sid := st.terminals[sid].(recoveries := st.terminals[sid].recoveries + [token])])
    else st
  }

  function AbsorbPage(st: AppState, sid: SessionId, g: nat, page: Bytes): AppState {
    if st.Shown(sid, g)
    then st.(terminals := st.terminals[sid := st.terminals[sid].(pages := st.terminals[sid].pages + [page])])
    else st
  }

  function Apply(st: AppState, m: Message): AppState {
    match m
    case EngineEvent(e) => HandleEvent(st, e)
    case EngineEvents(es) => HandleEvents(st, es)
    case ClientAttach(sid, tail, spawnSucceeds) => Attach(st, sid, tail, spawnSucceeds)
    case RecoverTerminalOutput(sid, g, token) => Recover(st, sid, g, token)
    case HistoryFetched(sid, g, page) => AbsorbPage(st, sid, g, page)
    case _ => AppState(ApplyCore(st.core, m), st.terminals - RemovedBy(st.core, m), st.transcripts)
  }

  lemma ApplyPlainly(st: AppState, m: Message)
    requires IsPlain(m)
    ensures Apply(st, m) == AppState(ApplyCore(st.core, m), st.terminals - RemovedBy(st.core, m), st.transcripts)
  {
  }

  function ApplyAll(st: AppState, ms: seq<Message>): AppState
    decreases |ms|
  {
    if ms == [] then st else ApplyAll(Apply(st, ms[0]), ms[1..])
  }

  lemma {:induction false} HandleEventsConcat(st: AppState, xs: seq<Event>, ys: seq<Event>)
    ensures HandleEvents(st, xs + ys) == HandleEvents(HandleEvents(st, xs), ys)
    decreases |xs|
  {
    if xs == [] {
      assert xs + ys == ys;
    } else {
      assert (xs + ys)[1..] == xs[1..] + ys;
      HandleEventsConcat(HandleEvent(st, xs[0]), xs[1..], ys);
    }
  }

  lemma {:induction false} ApplyAllConcat(st: AppState, xs: seq<Message>, ys: seq<Message>)
    ensures ApplyAll(st, xs + ys) == ApplyAll(ApplyAll(st, xs), ys)
    decreases |xs|
  {
    if xs == [] {
      assert xs + ys == ys;
    } else {
      assert (xs + ys)[1..] == xs[1..] + ys;
      ApplyAllConcat(Apply(st, xs[0]), xs[1..], ys);
    }
  }
}
