/** What engine events leave in the app, said field by field and over whole streams, whatever the handler's branches are
    called: which update a field of a session comes from, how many messages are unread, which notifications remain. */
module AppEffects {
  import opened NinoxTypes
  import opened Sorting
  import opened AppModel

  // ---------------------------------------------------------------- one event and one session

  /** The two rows agree in everything that belongs to a field group. */
  predicate Agree(a: Session, b: Session, g: FieldGroup) {
    match g
    case StatusField => a.status == b.status
    case GateField => a.gate == b.gate
    case PrLinkField => a.prNumber == b.prNumber && a.prId == b.prId && a.repo == b.repo
    case CostField => a.cost == b.cost
    case ContextField => a.context == b.context
    case TerminalAtField => a.terminalAt == b.terminalAt
    case MergedAtField => a.mergedAt == b.mergedAt
    case PidField => a.pid == b.pid
    case WorkspaceField => a.workspacePath == b.workspacePath
    case ModelField => a.model == b.model
    case ActivityField => a.activity == b.activity
  }

  /** They agree in what belongs to no group and is only ever set with the whole row. */
  predicate AgreeOtherwise(a: Session, b: Session) {
    a.id == b.id && a.orchestratorId == b.orchestratorId && a.startedAt == b.startedAt && a.rest == b.rest
  }

  lemma AgreeingRowsAreEqual(a: Session, b: Session)
    requires AgreeOtherwise(a, b) && forall g: FieldGroup :: Agree(a, b, g)
    ensures a == b
  {
    assert Agree(a, b, StatusField) && Agree(a, b, GateField) && Agree(a, b, PrLinkField) && Agree(a, b, CostField)
           && Agree(a, b, ContextField) && Agree(a, b, TerminalAtField) && Agree(a, b, MergedAtField)
           && Agree(a, b, PidField) && Agree(a, b, WorkspaceField) && Agree(a, b, ModelField)
           && Agree(a, b, ActivityField);
  }

  /** An update of a known session takes exactly the flagged groups from the incoming row; an unflagged field of a stale
      row, its status above all, changes nothing. */
  lemma UpdateMergesExactly(st: AppState, incoming: Session, groups: set<FieldGroup>)
    requires incoming.id in st.core.sessions
    ensures var (known, after) := (st.core.sessions[incoming.id],
                                   HandleEvent(st, SessionUpdated(incoming, Fields(groups))).core.sessions);
            after.Keys == st.core.sessions.Keys
            && AgreeOtherwise(after[incoming.id], known)
            && (forall g :: Agree(after[incoming.id], if g in groups then incoming else known, g))
            && forall sid :: sid in after && sid != incoming.id ==> after[sid] == st.core.sessions[sid]
  {
  }

  lemma BothUpdatesMerge(st: AppState, a: Session, b: Session, ga: set<FieldGroup>, gb: set<FieldGroup>, g: FieldGroup)
    requires a.id == b.id && a.id in st.core.sessions && ga !! gb
    ensures var both := HandleEvent(HandleEvent(st, SessionUpdated(a, Fields(ga))), SessionUpdated(b, Fields(gb)));
            both.core.sessions.Keys == st.core.sessions.Keys
            && AgreeOtherwise(both.core.sessions[a.id], st.core.sessions[a.id])
            && Agree(both.core.sessions[a.id], if g in ga then a else if g in gb then b else st.core.sessions[a.id], g)
            && forall sid :: sid in st.core.sessions && sid != a.id ==>
              both.core.sessions[sid] == st.core.sessions[sid]
  {
    var first := HandleEvent(st, SessionUpdated(a, Fields(ga)));
    UpdateMergesExactly(st, a, ga);
    UpdateMergesExactly(first, b, gb);
    assert Agree(first.core.sessions[a.id], if g in ga then a else st.core.sessions[a.id], g);
  }

  /** Updates with different groups may come in either order. */
  lemma DisjointUpdatesCommute(st: AppState, a: Session, b: Session, ga: set<FieldGroup>, gb: set<FieldGroup>)
    requires a.id == b.id && a.id in st.core.sessions && ga !! gb
    ensures var (ea, eb) := (SessionUpdated(a, Fields(ga)), SessionUpdated(b, Fields(gb)));
            HandleEvent(HandleEvent(st, ea), eb).core.sessions == HandleEvent(HandleEvent(st, eb), ea).core.sessions
  {
    var (ea, eb) := (SessionUpdated(a, Fields(ga)), SessionUpdated(b, Fields(gb)));
    var x := HandleEvent(HandleEvent(st, ea), eb).core.sessions;
    var y := HandleEvent(HandleEvent(st, eb), ea).core.sessions;
    forall g: FieldGroup ensures x.Keys == y.Keys == st.core.sessions.Keys && Agree(x[a.id], y[a.id], g) {
      BothUpdatesMerge(st, a, b, ga, gb, g);
      BothUpdatesMerge(st, b, a, gb, ga, g);
    }
    BothUpdatesMerge(st, a, b, ga, gb, StatusField);
    BothUpdatesMerge(st, b, a, gb, ga, StatusField);
    AgreeingRowsAreEqual(x[a.id], y[a.id]);
  }

  /** The event is about the row of `sid`. */
  predicate IsAbout(e: Event, sid: SessionId) {
    (e.SessionSpawned? && e.spawned.id == sid) || (e.SessionUpdated? && e.incoming.id == sid)
    || (e.SessionDone? && e.sid == sid) || (e.PrOpened? && e.sid == sid)
  }

  /** Which sessions the app knows after an event: the one it brings, and all before but those whose orchestrator it
      removes. Rows that the event is not about stay as they are; a spawn, and an update that is new or total, replaces
      the row; the end of a session sets its status, and an opened PR its link, and nothing else. */
  lemma SessionsAfterEvent(st: AppState, e: Event, sid: SessionId)
    ensures var (before, after) := (st.core.sessions, HandleEvent(st, e).core.sessions);
            (sid in after <==>
               ((e.SessionSpawned? || e.SessionUpdated?) && IsAbout(e, sid))
               || (sid in before && !(e.OrchestratorRemoved? && before[sid].orchestratorId == Some(e.orchId))))
            && (!IsAbout(e, sid) && sid in after ==> after[sid] == before[sid])
            && (e.SessionSpawned? && IsAbout(e, sid) ==> after[sid] == e.spawned)
            && (e.SessionUpdated? && IsAbout(e, sid) && (sid !in before || e.fields.AllFields?) ==>
                  after[sid] == e.incoming)
            && (e.SessionDone? && IsAbout(e, sid) && sid in before ==> after[sid] == before[sid].(status := Done))
            && (e.PrOpened? && IsAbout(e, sid) && sid in before ==>
                  after[sid] == before[sid].(prNumber := Some(e.pr.number), prId := Some(e.pr.id)))
  {
  }

  /** The status of a session changes only by an event that flags it, replaces the row or ends the session. */
  lemma StatusChangesExactly(st: AppState, e: Event, sid: SessionId)
    requires sid in st.core.sessions && sid in HandleEvent(st, e).core.sessions
    ensures var (before, after) := (st.core.sessions[sid].status, HandleEvent(st, e).core.sessions[sid].status);
            after == if e.SessionSpawned? && e.spawned.id == sid then e.spawned.status
                     else if e.SessionUpdated? && e.incoming.id == sid
                             && (e.fields.AllFields? || StatusField in e.fields.groups) then e.incoming.status
                     else if e.SessionDone? && e.sid == sid then Done
                     else before
  {
    SessionsAfterEvent(st, e, sid);
    if e.SessionUpdated? && e.incoming.id == sid && e.fields.Fields? {
      UpdateMergesExactly(st, e.incoming, e.fields.groups);
      assert Agree(HandleEvent(st, e).core.sessions[sid],
                   if StatusField in e.fields.groups then e.incoming else st.core.sessions[sid], StatusField);
    }
  }

  // ---------------------------------------------------------------- streams: the last word on every field

  /** What an event says about group `g` of session `sid`, whose row is `s` as far as this group goes. */
  function Says(e: Event, sid: SessionId, g: FieldGroup, s: Session): Session {
    if e.SessionSpawned? && e.spawned.id == sid then e.spawned
    else if e.SessionUpdated? && e.incoming.id == sid && (e.fields.AllFields? || g in e.fields.groups) then e.incoming
    else if e.SessionDone? && e.sid == sid then s.(status := Done)
    else if e.PrOpened? && e.sid == sid then s.(prNumber := Some(e.pr.number), prId := Some(e.pr.id))
    else s
  }

  /** The last word on a group in a stream. */
  function LastSaid(es: seq<Event>, sid: SessionId, g: FieldGroup, s: Session): Session {
    if es == [] then s else Says(es[|es| - 1], sid, g, LastSaid(es[..|es| - 1], sid, g, s))
  }

  lemma OneEventSays(st: AppState, e: Event, sid: SessionId, g: FieldGroup, s: Session)
    requires sid in st.core.sessions && Agree(st.core.sessions[sid], s, g) && !e.OrchestratorRemoved?
    ensures sid in HandleEvent(st, e).core.sessions
    ensures Agree(HandleEvent(st, e).core.sessions[sid], Says(e, sid, g, s), g)
  {
    SessionsAfterEvent(st, e, sid);
    if e.SessionUpdated? && e.incoming.id == sid && e.fields.Fields? {
      UpdateMergesExactly(st, e.incoming, e.fields.groups);
      assert Agree(HandleEvent(st, e).core.sessions[sid], if g in e.fields.groups then e.incoming
                                                          else st.core.sessions[sid], g);
    }
  }

  lemma HandleLast(st: AppState, es: seq<Event>)
    requires es != []
    ensures HandleEvents(st, es) == HandleEvent(HandleEvents(st, es[..|es| - 1]), es[|es| - 1])
  {
    var front, e := es[..|es| - 1], es[|es| - 1];
    assert es == front + [e] && [e][1..] == [];
    HandleEventsConcat(st, front, [e]);
  }

  /** After any stream that removes no orchestrator, each group of a session's fields is what the last event that speaks
      of it said, however updates of other groups, stale or not, come in between. */
  lemma {:induction false} EveryFieldIsTheLastWord(st: AppState, es: seq<Event>, sid: SessionId, g: FieldGroup)
    requires sid in st.core.sessions && forall i :: 0 <= i < |es| ==> !es[i].OrchestratorRemoved?
    ensures sid in HandleEvents(st, es).core.sessions
    ensures Agree(HandleEvents(st, es).core.sessions[sid], LastSaid(es, sid, g, st.core.sessions[sid]), g)
    decreases |es|
  {
    if es != [] {
      var front := es[..|es| - 1];
      EveryFieldIsTheLastWord(st, front, sid, g);
      HandleLast(st, es);
      OneEventSays(HandleEvents(st, front), es[|es| - 1], sid, g, LastSaid(front, sid, g, st.core.sessions[sid]));
    }
  }

  // ---------------------------------------------------------------- streams: unread messages

  function Unread(st: AppState, sid: SessionId): nat {
    if sid in st.core.unread then st.core.unread[sid] else 0
  }

  /** The messages delivered to a session that is not on screen, on top of `n`, since it was last done. */
  function Delivered(es: seq<Event>, sid: SessionId, onScreen: bool, n: nat): nat {
    if es == [] then n
    else
      var (e, before) := (es[|es| - 1], Delivered(es[..|es| - 1], sid, onScreen, n));
      if e.SessionDone? && e.sid == sid then 0
      else if e.MessagesDelivered? && e.sid == sid && !onScreen then before + e.count
      else before
  }

  predicate OnScreen(c: Core, sid: SessionId) {
    c.view.SessionDetail? && c.view.sid == sid
  }

  lemma DeliveryIsUnread(st: AppState, sid: SessionId, count: nat)
    ensures HandleEvent(st, MessagesDelivered(sid, count)).core.unread
            == if OnScreen(st.core, sid) then st.core.unread else st.core.unread[sid := Unread(st, sid) + count]
  {
  }

  /** What a stream of events never changes. */
  lemma EventsLeaveTheView(st: AppState, e: Event)
    ensures var (before, after) := (st.core, HandleEvent(st, e).core);
            after.view == before.view && after.workerPanel == before.workerPanel
            && after.nextGeneration == before.nextGeneration
  {
  }

  /** The unread mark goes when the session ends, or its orchestrator or it itself as one is removed. */
  lemma UnreadElsewhere(st: AppState, e: Event, sid: SessionId)
    requires !e.MessagesDelivered?
    ensures var (before, after) := (st.core, HandleEvent(st, e).core);
            var leaves := e.OrchestratorRemoved?
              && (sid == e.orchId || (sid in before.sessions && before.sessions[sid].orchestratorId == Some(e.orchId)));
            (sid in after.unread <==> sid in before.unread && !(e.SessionDone? && e.sid == sid) && !leaves)
            && (sid in after.unread ==> after.unread[sid] == before.unread[sid])
  {
  }

  lemma {:induction false} UnreadCountsDeliveries(st: AppState, es: seq<Event>, sid: SessionId)
    requires forall i :: 0 <= i < |es| ==> !es[i].OrchestratorRemoved?
    ensures HandleEvents(st, es).core.view == st.core.view
    ensures Unread(HandleEvents(st, es), sid) == Delivered(es, sid, OnScreen(st.core, sid), Unread(st, sid))
    decreases |es|
  {
    if es != [] {
      var front := es[..|es| - 1];
      UnreadCountsDeliveries(st, front, sid);
      HandleLast(st, es);
      var (now, e) := (HandleEvents(st, front), es[|es| - 1]);
      EventsLeaveTheView(now, e);
      if e.MessagesDelivered? {
        DeliveryIsUnread(now, e.sid, e.count);
      } else {
        UnreadElsewhere(now, e, sid);
      }
    }
  }

  // ---------------------------------------------------------------- streams: notifications, PRs, CI, orchestrators

  function Notifications(es: seq<Event>): seq<Notification> {
    if es == [] then []
    else Notifications(es[..|es| - 1]) + if es[|es| - 1].Notified? then [es[|es| - 1].notification] else []
  }

  function Latest<T>(xs: seq<T>, n: nat): seq<T> {
    if |xs| <= n then xs else xs[|xs| - n..]
  }

  lemma NotificationAfterEvent(st: AppState, e: Event)
    requires |st.core.notifications| <= 50
    ensures HandleEvent(st, e).core.notifications
            == if e.Notified? then Latest(st.core.notifications + [e.notification], 50) else st.core.notifications
  {
  }

  /** After any stream the panel shows the fifty latest notifications, oldest first. */
  lemma {:induction false} NotificationsAreTheLatest(st: AppState, es: seq<Event>)
    requires |st.core.notifications| <= 50
    ensures HandleEvents(st, es).core.notifications == Latest(st.core.notifications + Notifications(es), 50)
    decreases |es|
  {
    if es == [] {
      assert st.core.notifications + [] == st.core.notifications;
    } else {
      var front, e := es[..|es| - 1], es[|es| - 1];
      NotificationsAreTheLatest(st, front);
      HandleLast(st, es);
      NotificationAfterEvent(HandleEvents(st, front), e);
      LatestSnoc(st.core.notifications + Notifications(front), if e.Notified? then [e.notification] else []);
      assert (st.core.notifications + Notifications(front)) + (if e.Notified? then [e.notification] else [])
          == st.core.notifications + Notifications(es);
    }
  }

  lemma LatestSnoc<T>(xs: seq<T>, more: seq<T>)
    requires |more| <= 1
    ensures Latest(Latest(xs, 50) + more, 50) == Latest(xs + more, 50)
  {
    if |xs| > 50 {
      assert Latest(Latest(xs, 50) + more, 50) == Latest(xs + more, 50);
    }
  }

  /** The latest PR with this id that was opened or detected. */
  function LatestPr(es: seq<Event>, id: PrId): Option<Pr> {
    if es == [] then None
    else
      var e := es[|es| - 1];
      if (e.PrOpened? || e.ExtraPrDetected?) && e.pr.id == id then Some(e.pr) else LatestPr(es[..|es| - 1], id)
  }

  function LatestCi(es: seq<Event>, id: PrId): Option<string> {
    if es == [] then None
    else
      var e := es[|es| - 1];
      if e.CiUpdated? && e.prId == id then Some(e.ci) else LatestCi(es[..|es| - 1], id)
  }

  function LookUp<T>(m: map<PrId, T>, id: PrId): Option<T> {
    if id in m then Some(m[id]) else None
  }

  function Else<T>(a: Option<T>, b: Option<T>): Option<T> {
    if a.Some? then a else b
  }

  lemma PrsAfterEvent(st: AppState, e: Event, id: PrId)
    ensures LookUp(HandleEvent(st, e).core.prs, id)
            == if (e.PrOpened? || e.ExtraPrDetected?) && e.pr.id == id then Some(e.pr) else LookUp(st.core.prs, id)
    ensures LookUp(HandleEvent(st, e).core.ciStatus, id)
            == if e.CiUpdated? && e.prId == id then Some(e.ci) else LookUp(st.core.ciStatus, id)
  {
  }

  /** The ledger has the latest version of every PR, a session's own or an extra one, and its latest CI status. */
  lemma {:induction false} LedgerIsLatest(st: AppState, es: seq<Event>, id: PrId)
    ensures LookUp(HandleEvents(st, es).core.prs, id) == Else(LatestPr(es, id), LookUp(st.core.prs, id))
    ensures LookUp(HandleEvents(st, es).core.ciStatus, id) == Else(LatestCi(es, id), LookUp(st.core.ciStatus, id))
    decreases |es|
  {
    if es != [] {
      LedgerIsLatest(st, es[..|es| - 1], id);
      HandleLast(st, es);
      PrsAfterEvent(HandleEvents(st, es[..|es| - 1]), es[|es| - 1], id);
    }
  }

  /** An orchestrator is known after a stream exactly if the last event about it brought it, or none was about it and it
      was known before. */
  predicate EndsKnown(es: seq<Event>, id: SessionId, before: bool) {
    if es == [] then before
    else
      var e := es[|es| - 1];
      if e.OrchestratorSpawned? && e.orch.id == id then true
      else if e.OrchestratorRemoved? && e.orchId == id then false
      else EndsKnown(es[..|es| - 1], id, before)
  }

  predicate DistinctOrchestrators(orchs: seq<Orchestrator>) {
    forall i, j :: 0 <= i < j < |orchs| ==> orchs[i].id != orchs[j].id
  }

  lemma {:induction false} WithoutExactly(orchs: seq<Orchestrator>, id: SessionId, o: Orchestrator)
    ensures o in WithoutOrchestrator(orchs, id) <==> o in orchs && o.id != id
    decreases |orchs|
  {
    if orchs != [] {
      FilterCons((x: Orchestrator) => x.id != id, orchs);
      WithoutExactly(orchs[1..], id, o);
      WithoutCons(orchs, id);
      assert orchs == [orchs[0]] + orchs[1..];
    }
  }

  lemma FilterCons<T>(p: T -> bool, xs: seq<T>)
    requires xs != []
    ensures Filter(p, xs) == (if p(xs[0]) then [xs[0]] else []) + Filter(p, xs[1..])
  {
  }

  lemma WithoutCons(orchs: seq<Orchestrator>, id: SessionId)
    requires orchs != []
    ensures WithoutOrchestrator(orchs, id)
            == (if orchs[0].id != id then [orchs[0]] else []) + WithoutOrchestrator(orchs[1..], id)
  {
  }

  /** A new orchestrator comes last, a known one again changes nothing, and a removed one goes; the others stay. */
  lemma OrchestratorsAfterEvent(st: AppState, e: Event, o: Orchestrator)
    ensures var (before, after) := (st.core.orchestrators, HandleEvent(st, e).core.orchestrators);
            (e.OrchestratorSpawned? ==>
               after == if exists k :: k in before && k.id == e.orch.id then before else before + [e.orch])
            && (e.OrchestratorRemoved? ==> (o in after <==> o in before && o.id != e.orchId))
            && (!e.OrchestratorSpawned? && !e.OrchestratorRemoved? ==> after == before)
  {
    if e.OrchestratorRemoved? {
      WithoutExactly(st.core.orchestrators, e.orchId, o);
    }
    assert e.OrchestratorSpawned? ==>
      (KnowsOrchestrator(st.core.orchestrators, e.orch.id)
       <==> exists k :: k in st.core.orchestrators && k.id == e.orch.id);
  }

  ghost predicate Knows(st: AppState, id: SessionId) {
    exists o :: o in st.core.orchestrators && o.id == id
  }

  lemma {:induction false} KnownOrchestratorsExactly(st: AppState, es: seq<Event>, id: SessionId)
    ensures Knows(HandleEvents(st, es), id) <==> EndsKnown(es, id, Knows(st, id))
    decreases |es|
  {
    if es != [] {
      var (front, e) := (es[..|es| - 1], es[|es| - 1]);
      KnownOrchestratorsExactly(st, front, id);
      HandleLast(st, es);
      KnownAfterEvent(HandleEvents(st, front), e, id);
    }
  }

  lemma KnownAfterEvent(st: AppState, e: Event, id: SessionId)
    ensures Knows(HandleEvent(st, e), id)
       <==> if e.OrchestratorSpawned? && e.orch.id == id then true
            else Knows(st, id) && !(e.OrchestratorRemoved? && e.orchId == id)
  {
    forall o ensures o in HandleEvent(st, e).core.orchestrators
      <==> if e.OrchestratorSpawned? && o == e.orch && !Knows(st, o.id) then true
           else o in st.core.orchestrators && !(e.OrchestratorRemoved? && e.orchId == o.id)
    {
      OrchestratorsAfterEvent(st, e, o);
    }
    if e.OrchestratorSpawned? && e.orch.id == id && !Knows(st, id) {
      assert e.orch in HandleEvent(st, e).core.orchestrators;
    }
    if Knows(st, id) {
      var o :| o in st.core.orchestrators && o.id == id;
      assert o in HandleEvent(st, e).core.orchestrators || (e.OrchestratorRemoved? && e.orchId == id);
    }
  }

  // ---------------------------------------------------------------- clients and emulators

  /** The event takes the client and the emulator of `sid`: it ends the session, or closes the client on record. */
  predicate Closes(st: AppState, e: Event, sid: SessionId) {
    (e.SessionDone? && e.sid == sid)
    || (e.ClientClosed? && e.sid == sid && sid in st.core.clients && st.core.clients[sid] == e.generation)
  }

  lemma OtherEventsCloseNothing(st: AppState, e: Event)
    requires !e.SessionDone? && !e.ClientClosed?
    ensures HandleEvent(st, e).core.clients == st.core.clients && HandleEvent(st, e).core.diffs == st.core.diffs
    ensures HandleEvent(st, e).terminals.Keys == st.terminals.Keys
  {
    MinusNothing(st.terminals);
  }

  lemma ClosingEventsClose(st: AppState, e: Event)
    requires e.SessionDone? || e.ClientClosed?
    ensures var (after, gone) := (HandleEvent(st, e), if Closes(st, e, e.sid) then {e.sid} else {});
            after.core.clients == st.core.clients - gone && after.core.diffs == st.core.diffs - gone
            && after.terminals == st.terminals - gone
  {
    MinusNothing(st.core.clients);
    MinusNothing(st.core.diffs);
  }

  /** Exactly these clients, emulators and diffs go. */
  lemma ClosingTakesExactly(st: AppState, e: Event, sid: SessionId)
    ensures var after := HandleEvent(st, e);
            (sid in after.core.clients <==> sid in st.core.clients && !Closes(st, e, sid))
            && (sid in after.core.clients ==> after.core.clients[sid] == st.core.clients[sid])
            && (sid in after.terminals <==> sid in st.terminals && !Closes(st, e, sid))
            && (sid in after.core.diffs <==> sid in st.core.diffs && !Closes(st, e, sid))
            && (sid in after.core.diffs ==> after.core.diffs[sid] == st.core.diffs[sid])
  {
    if e.SessionDone? || e.ClientClosed? {
      ClosingEventsClose(st, e);
    } else {
      OtherEventsCloseNothing(st, e);
      assert sid in HandleEvent(st, e).terminals.Keys <==> sid in st.terminals.Keys;
    }
  }

  /** An emulator is given exactly the output of the client on record for it. */
  lemma OutputReachesExactly(st: AppState, e: Event, sid: SessionId)
    requires sid in st.terminals && sid in HandleEvent(st, e).terminals
    ensures HandleEvent(st, e).terminals[sid]
            == if e.ClientOutput? && e.sid == sid && sid in st.core.clients && st.core.clients[sid] == e.generation
               then st.terminals[sid].(log := st.terminals[sid].log + e.bytes) else st.terminals[sid]
  {
  }

  predicate ReattachedBy(c: Core, e: Event) {
    e.ClientClosed? && e.sid in c.clients && c.clients[e.sid] == e.generation && OnScreen(c, e.sid)
    && e.sid !in c.reattachAttempted
  }

  lemma CloseReattachesExactly(c: Core, sid: SessionId, g: nat)
    ensures var after := HandleCore(c, ClientClosed(sid, g));
            if ReattachedBy(c, ClientClosed(sid, g))
            then after.reattaches == c.reattaches + [sid] && after.reattachAttempted == c.reattachAttempted + {sid}
            else after.reattaches == c.reattaches && after.reattachAttempted == c.reattachAttempted
  {
  }

  lemma OtherEventsReattachNothing(c: Core, e: Event)
    requires !e.ClientClosed?
    ensures HandleCore(c, e).reattaches == c.reattaches && HandleCore(c, e).reattachAttempted == c.reattachAttempted
  {
  }

  /** A client that dies on screen, and only such a client, is reattached, unless its session has been before. */
  lemma ReattachesExactly(st: AppState, e: Event)
    ensures var (c, after) := (st.core, HandleEvent(st, e).core);
            if ReattachedBy(c, e)
            then after.reattaches == c.reattaches + [e.sid] && after.reattachAttempted == c.reattachAttempted + {e.sid}
            else after.reattaches == c.reattaches && after.reattachAttempted == c.reattachAttempted
  {
    if e.ClientClosed? {
      CloseReattachesExactly(st.core, e.sid, e.generation);
    } else if !e.ClientOutput? {
      OtherEventsReattachNothing(st.core, e);
    }
  }
}
