/** Holding output back changes none of the app's fields, whatever the user does meanwhile, and every emulator that a
    client draws on only lacks what is held for that client. */
module Transparency {
  import opened NinoxTypes
  import opened Sequences
  import opened AppModel
  import opened Coalescer
  import opened Conservation
  import opened Equivalence

  /** A turn of the coalescer's loop, whose batch the app handles at once, or a message from elsewhere. */
  datatype Action = Poll(tick: Tick) | User(message: Message)

  datatype Desk = Desk(app: AppState, held: Held, clock: Time)

  function CoalescedStep(d: Desk, a: Action): (r: Desk)
    requires WellFormed(d.held)
    ensures WellFormed(r.held)
  {
    match a
    case Poll(t) =>
      var (held, turn) := Step(d.held, t);
      Desk(HandleEvents(d.app, YieldOf(turn)), held, t.handled)
    case User(m) => d.(app := Apply(d.app, m))
  }

  /** The app without a coalescer. */
  function DirectStep(st: AppState, a: Action): AppState {
    match a
    case Poll(t) => if t.outcome.Received? then HandleEvent(st, t.outcome.event) else st
    case User(m) => Apply(st, m)
  }

  function CoalescedRun(d: Desk, actions: seq<Action>): (r: Desk)
    requires WellFormed(d.held)
    ensures WellFormed(r.held)
    decreases |actions|
  {
    if actions == [] then d else CoalescedRun(CoalescedStep(d, actions[0]), actions[1..])
  }

  function DirectRun(st: AppState, actions: seq<Action>): AppState
    decreases |actions|
  {
    if actions == [] then st else DirectRun(DirectStep(st, actions[0]), actions[1..])
  }

  /** The channel keeps its rules, and an attached client's reader only uses a generation already given out. */
  predicate Possible(d: Desk, a: Action)
    requires WellFormed(d.held)
  {
    match a
    case Poll(t) => d.clock <= t.head && Legal(d.held, t) && (t.outcome.Received? ==> Issued(d.app, t.outcome.event))
    case User(m) => !m.EngineEvent? && !m.EngineEvents?
  }

  predicate Issued(st: AppState, e: Event) {
    e.ClientOutput? ==> e.generation < st.core.nextGeneration
  }

  predicate PossibleRun(d: Desk, actions: seq<Action>)
    requires WellFormed(d.held)
    decreases |actions|
  {
    actions == [] || (Possible(d, actions[0]) && PossibleRun(CoalescedStep(d, actions[0]), actions[1..]))
  }

  // ---------------------------------------------------------------- the relation

  predicate IsPrefix(a: Bytes, b: Bytes) {
    |a| <= |b| && a == b[..|a|]
  }

  /** For client `g` of `sid`, `direct` has also handled the bytes that `held` still keeps from `app`. */
  predicate DrawnAhead(direct: AppState, app: AppState, held: seq<Event>, sid: SessionId, g: nat) {
    && sid in app.terminals && sid in direct.terminals
    && direct.terminals[sid] == app.terminals[sid].(log := app.terminals[sid].log + BytesOf(held, sid, g))
    && direct.Transcript(ClientId(sid, g)) == app.Transcript(ClientId(sid, g)) + BytesOf(held, sid, g)
  }

  /** `direct` is `app` with `held` already handled, wherever a client draws; and no emulator of `app` was ever
      given a byte that `direct`'s was not. */
  ghost predicate AheadBy(direct: AppState, app: AppState, held: seq<Event>) {
    && direct.core == app.core
    && direct.terminals.Keys == app.terminals.Keys
    && (forall sid, g :: app.Shown(sid, g) ==> DrawnAhead(direct, app, held, sid, g))
    && (forall k :: IsPrefix(app.Transcript(k), direct.Transcript(k)))
    && (forall k :: k in direct.transcripts ==> k.generation < direct.core.nextGeneration)
    && AllOutput(held)
    && (forall i :: 0 <= i < |held| ==> held[i].generation < app.core.nextGeneration)
  }

  lemma IssuedBytesOnly(held: seq<Event>, sid: SessionId, g: nat)
    requires AllOutput(held) && forall i :: 0 <= i < |held| ==> held[i].generation < g
    ensures BytesOf(held, sid, g) == []
  {
  }

  // ---------------------------------------------------------------- one step

  /** No client is new and no generation is given out. */
  predicate Narrows(before: Core, after: Core) {
    && after.nextGeneration == before.nextGeneration
    && forall sid :: sid in after.clients ==> before.Current(sid, after.clients[sid])
  }

  /** Taking emulators and clients away keeps the relation. */
  lemma RemovingKeepsAhead(direct: AppState, app: AppState, held: seq<Event>, core: Core, gone: set<SessionId>)
    requires AheadBy(direct, app, held)
    requires Narrows(app.core, core)
    ensures AheadBy(AppState(core, direct.terminals - gone, direct.transcripts),
                    AppState(core, app.terminals - gone, app.transcripts), held)
  {
    var d, a := AppState(core, direct.terminals - gone, direct.transcripts),
      AppState(core, app.terminals - gone, app.transcripts);
    forall sid, g | a.Shown(sid, g) ensures DrawnAhead(d, a, held, sid, g) {
      assert app.Shown(sid, g);
    }
    forall k ensures IsPrefix(a.Transcript(k), d.Transcript(k)) {
      assert IsPrefix(app.Transcript(k), direct.Transcript(k));
    }
  }

  lemma PollNarrows(c: Core, db: seq<Session>, dbOrchs: seq<Orchestrator>)
    ensures Narrows(c, AppModel.Poll(c, db, dbOrchs))
  {
  }

  lemma PanelNarrows(c: Core, panel: Panel)
    ensures Narrows(c, SwitchPanel(c, panel))
  {
  }

  lemma NavigationsAttachNothing(c: Core, m: Message)
    requires OnlyNavigates(m)
    ensures Narrows(c, ApplyCore(c, m))
  {
    if m.SwitchDetailPanel? {
      PanelNarrows(c, m.panel);
    }
  }

  lemma LeavingKeepsClients(c: Core, id: SessionId)
    ensures DropFleet(LeaveView(c, id), id).clients == c.clients
    ensures DropFleet(LeaveView(c, id), id).nextGeneration == c.nextGeneration
  {
  }

  lemma KeepingNarrows(c: Core, id: SessionId)
    ensures Narrows(c, KeepKnown(c, id))
  {
  }

  lemma DroppingNarrows(c: Core, id: SessionId)
    ensures Narrows(c, DropOrchestrator(c, id))
  {
    var dropped := DropFleet(LeaveView(c, id), id);
    LeavingKeepsClients(c, id);
    KeepingNarrows(dropped, id);
    assert DropOrchestrator(c, id) == KeepKnown(dropped, id);
  }

  lemma DetachingNarrows(c: Core, sid: SessionId)
    ensures Narrows(c, Detach(c, sid)) && Narrows(c, DropSession(c, sid))
  {
  }

  lemma NavigatingNarrows(c: Core, sid: SessionId)
    ensures Narrows(c, Navigate(c, sid))
  {
  }

  lemma PlainMessagesAttachNothing(c: Core, m: Message)
    requires IsPlain(m)
    ensures Narrows(c, ApplyCore(c, m))
  {
    if OnlyNavigates(m) {
      NavigationsAttachNothing(c, m);
    } else if m.PollSessions? {
      PollNarrows(c, m.dbSessions, m.dbOrchestrators);
    } else if m.RemoveOrchestrator? {
      DroppingNarrows(c, m.orchId);
    } else if m.NavigateSession? {
      NavigatingNarrows(c, m.sid);
    } else {
      DetachingNarrows(c, m.sid);
    }
  }

  lemma EventsAttachNothing(c: Core, e: Event)
    ensures Narrows(c, HandleCore(c, e))
  {
  }

  lemma {:induction false} EventsNarrow(st: AppState, es: seq<Event>)
    ensures Narrows(st.core, HandleEvents(st, es).core)
    decreases |es|
  {
    if es != [] {
      EventsAttachNothing(st.core, es[0]);
      EventsNarrow(HandleEvent(st, es[0]), es[1..]);
    }
  }

  lemma AttachingKeepsAhead(direct: AppState, app: AppState, held: seq<Event>, sid: SessionId, tail: Option<Bytes>,
                            ok: bool)
    requires AheadBy(direct, app, held)
    ensures AheadBy(Attach(direct, sid, tail, ok), Attach(app, sid, tail, ok), held)
  {
    var d, a := Attach(direct, sid, tail, ok), Attach(app, sid, tail, ok);
    forall s, g | a.Shown(s, g) ensures DrawnAhead(d, a, held, s, g) {
      if app.Shown(s, g) && s != sid {
        assert DrawnAhead(direct, app, held, s, g);
      } else if a != app && s == sid && ok {
        var k := ClientId(sid, g);
        IssuedBytesOnly(held, sid, g);
        assert IsPrefix(app.Transcript(k), direct.Transcript(k));
        assert direct.Transcript(k) == [] && app.Transcript(k) == [];
        assert TailBytes(tail) + [] == TailBytes(tail);
      } else {
        assert DrawnAhead(direct, app, held, s, g);
      }
    }
    forall k ensures IsPrefix(a.Transcript(k), d.Transcript(k)) {
      assert IsPrefix(app.Transcript(k), direct.Transcript(k));
    }
  }

  lemma RecoveringKeepsAhead(direct: AppState, app: AppState, held: seq<Event>, sid: SessionId, g: nat, token: nat)
    requires AheadBy(direct, app, held)
    ensures AheadBy(Recover(direct, sid, g, token), Recover(app, sid, g, token), held)
  {
    var d, a := Recover(direct, sid, g, token), Recover(app, sid, g, token);
    forall s, h | a.Shown(s, h) ensures DrawnAhead(d, a, held, s, h) {
      assert app.Shown(s, h) && DrawnAhead(direct, app, held, s, h);
    }
    forall k ensures IsPrefix(a.Transcript(k), d.Transcript(k)) {
      assert IsPrefix(app.Transcript(k), direct.Transcript(k));
    }
  }

  lemma AbsorbingKeepsAhead(direct: AppState, app: AppState, held: seq<Event>, sid: SessionId, g: nat, page: Bytes)
    requires AheadBy(direct, app, held)
    ensures AheadBy(AbsorbPage(direct, sid, g, page), AbsorbPage(app, sid, g, page), held)
  {
    var d, a := AbsorbPage(direct, sid, g, page), AbsorbPage(app, sid, g, page);
    forall s, h | a.Shown(s, h) ensures DrawnAhead(d, a, held, s, h) {
      assert app.Shown(s, h) && DrawnAhead(direct, app, held, s, h);
    }
    forall k ensures IsPrefix(a.Transcript(k), d.Transcript(k)) {
      assert IsPrefix(app.Transcript(k), direct.Transcript(k));
    }
  }

  lemma MessagesKeepAhead(direct: AppState, app: AppState, held: seq<Event>, m: Message)
    requires AheadBy(direct, app, held) && !m.EngineEvent? && !m.EngineEvents?
    ensures AheadBy(Apply(direct, m), Apply(app, m), held)
  {
    if m.ClientAttach? {
      AttachingKeepsAhead(direct, app, held, m.sid, m.initialTail, m.spawnSucceeds);
    } else if m.RecoverTerminalOutput? {
      RecoveringKeepsAhead(direct, app, held, m.sid, m.generation, m.token);
    } else if m.HistoryFetched? {
      AbsorbingKeepsAhead(direct, app, held, m.sid, m.generation, m.page);
    } else {
      PlainMessagesAttachNothing(app.core, m);
      RemovingKeepsAhead(direct, app, held, ApplyCore(app.core, m), RemovedBy(app.core, m));
    }
  }

  /** An event that both apps handle, one of them ahead of its held output. */
  lemma EventsKeepAhead(direct: AppState, app: AppState, held: seq<Event>, e: Event)
    requires AheadBy(direct, app, held) && !e.ClientOutput?
    ensures AheadBy(HandleEvent(direct, e), HandleEvent(app, e), held)
  {
    EventsAttachNothing(app.core, e);
    RemovingKeepsAhead(direct, app, held, HandleCore(app.core, e), ClosedBy(app.core, e));
  }

  lemma PushedElsewhere(direct: AppState, app: AppState, held: seq<Event>, e: Event, s: SessionId, g: nat)
    requires AllOutput(held) && e.ClientOutput? && !IsFrom(e, s, g) && direct.core == app.core
    requires app.Shown(s, g) && DrawnAhead(direct, app, held, s, g)
    ensures DrawnAhead(HandleOutput(direct, e.sid, e.generation, e.bytes), app, MergeOutput(held, e), s, g)
  {
    MergeKeepsBytes(held, e, s, g);
    Snoc(held, e, s, g);
    assert BytesOf(held, s, g) + [] == BytesOf(held, s, g);
  }

  lemma PushedHere(direct: AppState, app: AppState, held: seq<Event>, e: Event, s: SessionId, g: nat)
    requires AllOutput(held) && e.ClientOutput? && IsFrom(e, s, g) && direct.core == app.core
    requires app.Shown(s, g) && DrawnAhead(direct, app, held, s, g)
    ensures DrawnAhead(HandleOutput(direct, s, g, e.bytes), app, MergeOutput(held, e), s, g)
  {
    MergeKeepsBytes(held, e, s, g);
    Snoc(held, e, s, g);
    Associates(app.terminals[s].log, BytesOf(held, s, g), e.bytes);
    Associates(app.Transcript(ClientId(s, g)), BytesOf(held, s, g), e.bytes);
  }

  lemma PushedDrawn(direct: AppState, app: AppState, held: seq<Event>, e: Event, s: SessionId, g: nat)
    requires AllOutput(held) && e.ClientOutput? && direct.core == app.core
    requires app.Shown(s, g) && DrawnAhead(direct, app, held, s, g)
    ensures DrawnAhead(HandleEvent(direct, e), app, MergeOutput(held, e), s, g)
  {
    if IsFrom(e, s, g) {
      PushedHere(direct, app, held, e, s, g);
    } else {
      PushedElsewhere(direct, app, held, e, s, g);
    }
  }

  /** Holding one more output puts the other app ahead by it. */
  lemma PushKeepsAhead(direct: AppState, app: AppState, held: seq<Event>, e: Event)
    requires AheadBy(direct, app, held) && e.ClientOutput? && e.generation < app.core.nextGeneration
    ensures AheadBy(HandleEvent(direct, e), app, MergeOutput(held, e))
  {
    var d, held' := HandleEvent(direct, e), MergeOutput(held, e);
    forall s, g | app.Shown(s, g) ensures DrawnAhead(d, app, held', s, g) {
      PushedDrawn(direct, app, held, e, s, g);
    }
    forall k ensures IsPrefix(app.Transcript(k), d.Transcript(k)) {
      assert IsPrefix(app.Transcript(k), direct.Transcript(k));
    }
  }

  lemma FlushOneDrawn(direct: AppState, app: AppState, held: seq<Event>, sid: SessionId, g: nat)
    requires held != [] && held[0].ClientOutput? && app.Shown(sid, g) && DrawnAhead(direct, app, held, sid, g)
    ensures DrawnAhead(direct, HandleEvent(app, held[0]), held[1..], sid, g)
  {
    var e := held[0];
    if IsFrom(e, sid, g) {
      Associates(app.terminals[sid].log, e.bytes, BytesOf(held[1..], sid, g));
      Associates(app.Transcript(ClientId(sid, g)), e.bytes, BytesOf(held[1..], sid, g));
    }
  }

  /** Handling the first held output brings `app` closer. */
  lemma FlushOne(direct: AppState, app: AppState, held: seq<Event>)
    requires AheadBy(direct, app, held) && held != []
    ensures AheadBy(direct, HandleEvent(app, held[0]), held[1..])
  {
    var e, a := held[0], HandleEvent(app, held[0]);
    assert a.core == app.core && a.terminals.Keys == app.terminals.Keys;
    forall s, g | a.Shown(s, g) ensures DrawnAhead(direct, a, held[1..], s, g) {
      assert app.Shown(s, g);
      FlushOneDrawn(direct, app, held, s, g);
    }
    forall k ensures IsPrefix(a.Transcript(k), direct.Transcript(k)) {
      assert IsPrefix(app.Transcript(k), direct.Transcript(k));
      if a.Shown(k.sid, k.generation) {
        assert DrawnAhead(direct, a, held[1..], k.sid, k.generation);
      }
    }
  }

  lemma {:induction false} FlushCatchesUp(direct: AppState, app: AppState, held: seq<Event>)
    requires AheadBy(direct, app, held)
    ensures AheadBy(direct, HandleEvents(app, held), [])
    decreases |held|
  {
    if held != [] {
      FlushOne(direct, app, held);
      FlushCatchesUp(direct, HandleEvent(app, held[0]), held[1..]);
    }
  }

  lemma TurnKeepsAhead(direct: AppState, app: AppState, h: Held, t: Tick)
    requires WellFormed(h) && Legal(h, t) && (t.outcome.Received? ==> Issued(app, t.outcome.event))
    requires AheadBy(direct, app, h.outputs)
    ensures var (h', turn) := Step(h, t);
            AheadBy(DirectStep(direct, Poll(t)), HandleEvents(app, YieldOf(turn)), h'.outputs)
  {
    var (h', turn) := Step(h, t);
    var flushed := HandleEvents(app, h.outputs);
    if t.outcome.Received? {
      var e := t.outcome.event;
      if e.ClientOutput? {
        PushKeepsAhead(direct, app, h.outputs, e);
        assert YieldOf(turn) == [] && h'.outputs == MergeOutput(h.outputs, e);
      } else {
        HandleOne(app, e);
        HandleOne(flushed, e);
        if e.TerminalOutput? {
          MinusNothing(direct.terminals);
          assert YieldOf(turn) == [] && h'.outputs == h.outputs;
        } else if h.outputs == [] || !MustFollow(h.outputs, e) {
          EventsKeepAhead(direct, app, h.outputs, e);
          assert YieldOf(turn) == [e] && h'.outputs == h.outputs;
        } else {
          FlushCatchesUp(direct, app, h.outputs);
          EventsKeepAhead(direct, flushed, [], e);
          HandleEventsConcat(app, h.outputs, [e]);
          assert YieldOf(turn) == h.outputs + [e] && h'.outputs == [];
        }
      }
    } else {
      FlushCatchesUp(direct, app, h.outputs);
      assert YieldOf(turn) == h.outputs && h'.outputs == [];
    }
  }

  /** Along every run in which engine events, the clock, lag and any user messages interleave, the app that handles
      events on arrival is ahead of the coalesced one by exactly the held output. */
  lemma {:induction false} CoalescingIsTransparent(direct: AppState, d: Desk, actions: seq<Action>)
    requires WellFormed(d.held) && AheadBy(direct, d.app, d.held.outputs) && PossibleRun(d, actions)
    ensures var d' := CoalescedRun(d, actions);
            AheadBy(DirectRun(direct, actions), d'.app, d'.held.outputs)
    decreases |actions|
  {
    if actions != [] {
      var a := actions[0];
      match a {
        case Poll(t) => TurnKeepsAhead(direct, d.app, d.held, t);
        case User(m) => MessagesKeepAhead(direct, d.app, d.held.outputs, m);
      }
      CoalescingIsTransparent(DirectStep(direct, a), CoalescedStep(d, a), actions[1..]);
    }
  }

  lemma NothingIsAhead(st: AppState)
    requires st.transcripts == map[]
    ensures AheadBy(st, st, [])
  {
    forall sid, g | st.Shown(sid, g) ensures DrawnAhead(st, st, [], sid, g) {
      assert st.terminals[sid].log + [] == st.terminals[sid].log;
    }
  }

  /** All fields agree, and so does every emulator that a client draws on. */
  ghost predicate AttachedAgree(direct: AppState, app: AppState) {
    && direct.core == app.core
    && direct.terminals.Keys == app.terminals.Keys
    && (forall sid, g :: app.Shown(sid, g) ==>
          direct.terminals[sid] == app.terminals[sid]
          && direct.Transcript(ClientId(sid, g)) == app.Transcript(ClientId(sid, g)))
  }

  lemma CaughtUpAgrees(direct: AppState, app: AppState)
    requires AheadBy(direct, app, [])
    ensures AttachedAgree(direct, app)
  {
    forall sid, g | app.Shown(sid, g)
      ensures direct.terminals[sid] == app.terminals[sid]
      ensures direct.Transcript(ClientId(sid, g)) == app.Transcript(ClientId(sid, g))
    {
      assert DrawnAhead(direct, app, [], sid, g);
      assert app.terminals[sid].log + [] == app.terminals[sid].log;
    }
  }

  /** From any state of the app, whenever nothing is held, and once what is held is handled, the coalesced app agrees
      with the direct one in all fields and in all emulators that a client draws on. */
  lemma AttachedEmulatorsAgree(start: AppState, actions: seq<Action>)
    requires start.transcripts == map[] && PossibleRun(Desk(start, INITIAL, 0), actions)
    ensures var d := CoalescedRun(Desk(start, INITIAL, 0), actions);
            && AttachedAgree(DirectRun(start, actions), HandleEvents(d.app, d.held.outputs))
            && (d.held.outputs == [] ==> AttachedAgree(DirectRun(start, actions), d.app))
  {
    var d, direct := CoalescedRun(Desk(start, INITIAL, 0), actions), DirectRun(start, actions);
    NothingIsAhead(start);
    CoalescingIsTransparent(start, Desk(start, INITIAL, 0), actions);
    FlushCatchesUp(direct, d.app, d.held.outputs);
    CaughtUpAgrees(direct, HandleEvents(d.app, d.held.outputs));
  }
}
