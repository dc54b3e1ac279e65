/** What holding output back can do to the screen. A view shows the emulator of its session whether or not a client
    still draws on it, so output that is held when its client is dropped is missing there: that much, and no more. */
module Visibility {
  import opened NinoxTypes
  import opened Sorting
  import opened AppModel
  import opened Coalescer
  import opened Conservation
  import opened Equivalence
  import opened Transparency

  // ---------------------------------------------------------------- what is lost

  /** For a session without a client: the bytes that its emulator lacks for good. */
  type Losses = map<SessionId, Bytes>

  function LossOf(lost: Losses, sid: SessionId): Bytes {
    if sid in lost then lost[sid] else []
  }

  /** A session that a message leaves without a client lacks what was held for the client that it drops, or what it
      lacked before. */
  function LossesAfter(d: Desk, m: Message, lost: Losses): Losses {
    var (before, after) := (d.app.core.clients, Apply(d.app, m).core.clients);
    map sid | sid in lost.Keys + before.Keys && sid !in after ::
      if sid in before then BytesOf(d.held.outputs, sid, before[sid]) else LossOf(lost, sid)
  }

  /** The losses of a run. Engine events, the clock and the channel cause none. */
  function Losing(d: Desk, lost: Losses, actions: seq<Action>): Losses
    requires WellFormed(d.held)
    decreases |actions|
  {
    if actions == [] then lost
    else Losing(CoalescedStep(d, actions[0]),
                if actions[0].User? then LossesAfter(d, actions[0].message, lost) else lost,
                actions[1..])
  }

  /** An emulator without a client is short of exactly what was lost. */
  predicate ShortBy(direct: AppState, app: AppState, lost: Losses, sid: SessionId) {
    sid in app.terminals && sid in direct.terminals
    && direct.terminals[sid] == app.terminals[sid].(log := app.terminals[sid].log + LossOf(lost, sid))
  }

  predicate Idle(st: AppState, sid: SessionId) {
    sid in st.terminals && sid !in st.core.clients
  }

  ghost predicate IdleAreShort(direct: AppState, app: AppState, lost: Losses) {
    forall sid :: Idle(app, sid) ==> ShortBy(direct, app, lost, sid)
  }

  // ---------------------------------------------------------------- one step

  /** Output only reaches emulators with a client. */
  lemma OutputKeepsIdle(st: AppState, o: Event, sid: SessionId)
    requires o.ClientOutput?
    ensures Idle(HandleEvent(st, o), sid) <==> Idle(st, sid)
    ensures Idle(st, sid) ==> HandleEvent(st, o).terminals[sid] == st.terminals[sid]
  {
  }

  lemma {:induction false} FlushKeepsIdle(st: AppState, held: seq<Event>, sid: SessionId)
    requires AllOutput(held)
    ensures Idle(HandleEvents(st, held), sid) <==> Idle(st, sid)
    ensures Idle(st, sid) ==> HandleEvents(st, held).terminals[sid] == st.terminals[sid]
    decreases |held|
  {
    if held != [] {
      OutputChangesNoField(st, held[0]);
      OutputKeepsIdle(st, held[0], sid);
      FlushKeepsIdle(HandleEvent(st, held[0]), held[1..], sid);
    }
  }

  lemma FlushKeepsShort(direct: AppState, app: AppState, held: seq<Event>, lost: Losses)
    requires AllOutput(held) && IdleAreShort(direct, app, lost)
    ensures IdleAreShort(direct, HandleEvents(app, held), lost)
  {
    var a := HandleEvents(app, held);
    forall sid | Idle(a, sid) ensures ShortBy(direct, a, lost, sid) {
      FlushKeepsIdle(app, held, sid);
    }
  }

  lemma DirectOutputKeepsShort(direct: AppState, app: AppState, o: Event, lost: Losses)
    requires o.ClientOutput? && direct.core == app.core && IdleAreShort(direct, app, lost)
    ensures IdleAreShort(HandleEvent(direct, o), app, lost)
  {
    forall sid | Idle(app, sid) ensures ShortBy(HandleEvent(direct, o), app, lost, sid) {
      assert ShortBy(direct, app, lost, sid);
      OutputKeepsIdle(direct, o, sid);
    }
  }

  /** An event takes the emulator away with the client. */
  lemma EventsKeepShort(direct: AppState, app: AppState, e: Event, lost: Losses)
    requires !e.ClientOutput? && direct.core == app.core && IdleAreShort(direct, app, lost)
    ensures IdleAreShort(HandleEvent(direct, e), HandleEvent(app, e), lost)
  {
    var (d, a) := (HandleEvent(direct, e), HandleEvent(app, e));
    forall sid | Idle(a, sid) ensures ShortBy(d, a, lost, sid) {
      ClientsAfter(app.core, e);
      assert Idle(app, sid) && ShortBy(direct, app, lost, sid);
    }
  }

  lemma {:induction false} FlushKeepsCore(st: AppState, held: seq<Event>)
    requires AllOutput(held)
    ensures HandleEvents(st, held).core == st.core
    decreases |held|
  {
    if held != [] {
      OutputChangesNoField(st, held[0]);
      FlushKeepsCore(HandleEvent(st, held[0]), held[1..]);
    }
  }

  lemma TurnKeepsShort(direct: AppState, app: AppState, h: Held, t: Tick, lost: Losses)
    requires WellFormed(h) && Legal(h, t) && direct.core == app.core && IdleAreShort(direct, app, lost)
    ensures var (h', turn) := Step(h, t);
            IdleAreShort(DirectStep(direct, Poll(t)), HandleEvents(app, YieldOf(turn)), lost)
  {
    var (h', turn) := Step(h, t);
    if !t.outcome.Received? {
      assert YieldOf(turn) == h.outputs;
      FlushKeepsShort(direct, app, h.outputs, lost);
      return;
    }
    var e := t.outcome.event;
    if e.ClientOutput? {
      assert YieldOf(turn) == [];
      DirectOutputKeepsShort(direct, app, e, lost);
    } else if e.TerminalOutput? {
      assert YieldOf(turn) == [];
      MinusNothing(direct.terminals);
    } else if h.outputs == [] || !MustFollow(h.outputs, e) {
      assert YieldOf(turn) == [e];
      HandleOne(app, e);
      EventsKeepShort(direct, app, e, lost);
    } else {
      assert YieldOf(turn) == h.outputs + [e];
      var flushed := HandleEvents(app, h.outputs);
      HandleEventsConcat(app, h.outputs, [e]);
      HandleOne(flushed, e);
      FlushKeepsShort(direct, app, h.outputs, lost);
      FlushKeepsCore(app, h.outputs);
      EventsKeepShort(direct, flushed, e, lost);
    }
  }

  /** A message either leaves the emulator of an idle session alone, or takes its client away. */
  lemma MessagesKeepIdle(st: AppState, m: Message, sid: SessionId)
    requires !m.EngineEvent? && !m.EngineEvents? && Idle(Apply(st, m), sid)
    ensures sid in st.terminals && Apply(st, m).terminals[sid] == st.terminals[sid]
  {
  }

  lemma MessagesKeepShort(direct: AppState, d: Desk, m: Message, lost: Losses)
    requires AheadBy(direct, d.app, d.held.outputs) && IdleAreShort(direct, d.app, lost)
    requires !m.EngineEvent? && !m.EngineEvents?
    ensures IdleAreShort(Apply(direct, m), Apply(d.app, m), LossesAfter(d, m, lost))
  {
    var (dir, app, now) := (Apply(direct, m), Apply(d.app, m), LossesAfter(d, m, lost));
    MessagesKeepAhead(direct, d.app, d.held.outputs, m);
    forall sid | Idle(app, sid) ensures ShortBy(dir, app, now, sid) {
      MessagesKeepIdle(d.app, m, sid);
      assert Idle(dir, sid);
      MessagesKeepIdle(direct, m, sid);
      if sid in d.app.core.clients {
        assert DrawnAhead(direct, d.app, d.held.outputs, sid, d.app.core.clients[sid]);
      } else {
        assert ShortBy(direct, d.app, lost, sid);
      }
    }
  }

  lemma {:induction false} IdleStayShort(direct: AppState, d: Desk, lost: Losses, actions: seq<Action>)
    requires WellFormed(d.held) && AheadBy(direct, d.app, d.held.outputs) && IdleAreShort(direct, d.app, lost)
    requires PossibleRun(d, actions)
    ensures IdleAreShort(DirectRun(direct, actions), CoalescedRun(d, actions).app, Losing(d, lost, actions))
    decreases |actions|
  {
    if actions != [] {
      var a := actions[0];
      match a {
        case Poll(t) =>
          TurnKeepsAhead(direct, d.app, d.held, t);
          TurnKeepsShort(direct, d.app, d.held, t, lost);
        case User(m) =>
          MessagesKeepAhead(direct, d.app, d.held.outputs, m);
          MessagesKeepShort(direct, d, m, lost);
      }
      IdleStayShort(DirectStep(direct, a), CoalescedStep(d, a),
                    if a.User? then LossesAfter(d, a.message, lost) else lost, actions[1..]);
    }
  }

  // ---------------------------------------------------------------- exactly when the screens agree

  /** Whatever a session with a client lacked before its attach is made good by it. */
  lemma {:induction false} OnlyIdleLose(d: Desk, lost: Losses, actions: seq<Action>)
    requires WellFormed(d.held) && PossibleRun(d, actions)
    requires forall sid :: sid in lost ==> sid !in d.app.core.clients
    ensures forall sid :: sid in Losing(d, lost, actions) ==> sid !in CoalescedRun(d, actions).app.core.clients
    decreases |actions|
  {
    if actions != [] {
      if actions[0].Poll? {
        EventsNarrow(d.app, YieldOf(Step(d.held, actions[0].tick).1));
      }
      OnlyIdleLose(CoalescedStep(d, actions[0]),
                   if actions[0].User? then LossesAfter(d, actions[0].message, lost) else lost, actions[1..]);
    }
  }

  /** In every run, once what is held is handled, every emulator of the coalesced app is the direct app's but for what
      was held when it last lost its client: so the two agree exactly where that was nothing. */
  lemma EmulatorsAgreeExactly(start: AppState, actions: seq<Action>, sid: SessionId)
    requires start.transcripts == map[] && PossibleRun(Desk(start, INITIAL, 0), actions)
    ensures var d := CoalescedRun(Desk(start, INITIAL, 0), actions);
            var (direct, app) := (DirectRun(start, actions), HandleEvents(d.app, d.held.outputs));
            var lost := Losing(Desk(start, INITIAL, 0), map[], actions);
            && direct.core == app.core
            && (sid in direct.terminals <==> sid in app.terminals)
            && (sid in app.terminals ==>
                  ShortBy(direct, app, lost, sid)
                  && (direct.terminals[sid] == app.terminals[sid] <==> LossOf(lost, sid) == []))
  {
    var desk := Desk(start, INITIAL, 0);
    var d := CoalescedRun(desk, actions);
    var (direct, app) := (DirectRun(start, actions), HandleEvents(d.app, d.held.outputs));
    var lost := Losing(desk, map[], actions);
    AttachedEmulatorsAgree(start, actions);
    assert direct.terminals.Keys == app.terminals.Keys;
    if sid in app.terminals {
      NothingIsAhead(start);
      IdleStartWhole(start);
      IdleStayShort(start, desk, map[], actions);
      FlushKeepsShort(direct, d.app, d.held.outputs, lost);
      FlushKeepsCore(d.app, d.held.outputs);
      OnlyIdleLose(desk, map[], actions);
      if sid in app.core.clients {
        assert app.Shown(sid, app.core.clients[sid]);
        assert app.terminals[sid].log + [] == app.terminals[sid].log;
      } else {
        assert Idle(app, sid);
      }
      assert |app.terminals[sid].log + LossOf(lost, sid)| == |app.terminals[sid].log| + |LossOf(lost, sid)|;
      if LossOf(lost, sid) == [] {
        assert app.terminals[sid].log + [] == app.terminals[sid].log;
      }
    }
  }

  lemma IdleStartWhole(st: AppState)
    ensures IdleAreShort(st, st, map[])
  {
    forall sid | Idle(st, sid) ensures ShortBy(st, st, map[], sid) {
      assert st.terminals[sid].log + [] == st.terminals[sid].log;
    }
  }

  /** The emulator that the view draws. */
  function OnScreen(st: AppState): Option<Terminal> {
    if st.core.view.SessionDetail? && st.core.view.sid in st.terminals then Some(st.terminals[st.core.view.sid])
    else None
  }

  /** What the emulator on screen, if there is one, has lost. */
  function LossOnScreen(st: AppState, lost: Losses): Bytes {
    if OnScreen(st).Some? then LossOf(lost, st.core.view.sid) else []
  }

  /** So the two screens agree exactly if the emulator they show has lost nothing. */
  lemma ScreensAgreeExactly(start: AppState, actions: seq<Action>)
    requires start.transcripts == map[] && PossibleRun(Desk(start, INITIAL, 0), actions)
    ensures var d := CoalescedRun(Desk(start, INITIAL, 0), actions);
            var (direct, app) := (DirectRun(start, actions), HandleEvents(d.app, d.held.outputs));
            var lost := Losing(Desk(start, INITIAL, 0), map[], actions);
            OnScreen(direct) == OnScreen(app) <==> LossOnScreen(app, lost) == []
  {
    var d := CoalescedRun(Desk(start, INITIAL, 0), actions);
    var view := HandleEvents(d.app, d.held.outputs).core.view;
    EmulatorsAgreeExactly(start, actions, if view.SessionDetail? then view.sid else "");
  }

  // ---------------------------------------------------------------- a screen that lost output

  /** From an empty app, `actions` lead the direct app to `direct` and the coalesced one to `d`. */
  predicate LeadsTo(actions: seq<Action>, direct: AppState, d: Desk) {
    var start := Desk(EMPTY, INITIAL, 0);
    PossibleRun(start, actions) && CoalescedRun(start, actions) == d && DirectRun(EMPTY, actions) == direct
  }

  lemma {:induction false} RunsSnoc(direct: AppState, d: Desk, actions: seq<Action>, a: Action)
    requires WellFormed(d.held)
    ensures CoalescedRun(d, actions + [a]) == CoalescedStep(CoalescedRun(d, actions), a)
    ensures DirectRun(direct, actions + [a]) == DirectStep(DirectRun(direct, actions), a)
    ensures PossibleRun(d, actions + [a]) <==> PossibleRun(d, actions) && Possible(CoalescedRun(d, actions), a)
    decreases |actions|
  {
    if actions == [] {
      assert actions + [a] == [a] && [a][1..] == [];
    } else {
      assert (actions + [a])[0] == actions[0] && (actions + [a])[1..] == actions[1..] + [a];
      RunsSnoc(DirectStep(direct, actions[0]), CoalescedStep(d, actions[0]), actions[1..], a);
    }
  }

  lemma OneMore(actions: seq<Action>, direct: AppState, d: Desk, a: Action)
    requires LeadsTo(actions, direct, d) && WellFormed(d.held) && Possible(d, a)
    ensures LeadsTo(actions + [a], DirectStep(direct, a), CoalescedStep(d, a))
  {
    RunsSnoc(EMPTY, Desk(EMPTY, INITIAL, 0), actions, a);
  }

  /** An app that views worker `s` of its only orchestrator `o`. */
  function Watching(o: Orchestrator, s: Session, clients: map<SessionId, nat>, next: nat): Core {
    EMPTY.core.(orchestrators := [o], sessions := map[s.id := s], view := SessionDetail(s.id, SplitPanel),
                clients := clients, nextGeneration := next)
  }

  lemma PollFinds(c: Core, o: Orchestrator, s: Session)
    requires c.orchestrators == [] && c.sessions == map[] && c.diffs == map[]
    requires c.view.SessionDetail? ==> !c.view.panel.DiffPanel?
    ensures AppModel.Poll(c, [s], [o]) == c.(orchestrators := [o], sessions := map[s.id := s])
    ensures Gone(c, [s], [o]) == {}
  {
    assert [s][1..] == [] && [o][1..] == [];
    assert AddOrchestrator([], o) == [o] && AdoptSession(map[], s) == map[s.id := s];
    assert AddOrchestrators([], [o]) == AddOrchestrators([o], []) == [o];
    assert AdoptSessions(map[], [s]) == AdoptSessions(map[s.id := s], []) == map[s.id := s];
    assert Gone(c, [s], [o]) == {};
    MinusNothing(c.sessions);
    MinusNothing(c.diffs);
  }

  lemma PollFindsThem(st: AppState, o: Orchestrator, s: Session)
    requires st.core.orchestrators == [] && st.core.sessions == map[] && st.core.diffs == map[]
    requires st.core.view.SessionDetail? ==> !st.core.view.panel.DiffPanel?
    ensures Apply(st, PollSessions([s], [o]))
            == st.(core := st.core.(orchestrators := [o], sessions := map[s.id := s]))
  {
    PollFinds(st.core, o, s);
    ApplyPlainly(st, PollSessions([s], [o]));
    MinusNothing(st.terminals);
  }

  lemma WithoutTheOnlyOne(o: Orchestrator)
    ensures WithoutOrchestrator([o], o.id) == []
  {
    assert [o][0] == o && [o][1..] == [];
    assert Filter((x: Orchestrator) => x.id != o.id, [o]) == Filter((x: Orchestrator) => x.id != o.id, []);
  }

  lemma RemovalLeavesView(o: Orchestrator, s: Session)
    requires s.orchestratorId == Some(o.id) && s.id != o.id
    ensures DropOrchestrator(Watching(o, s, map[s.id := 0], 1), o.id)
            == Watching(o, s, map[], 1).(orchestrators := [], sessions := map[])
  {
    var c := Watching(o, s, map[s.id := 0], 1);
    WithoutTheOnlyOne(o);
    assert s.id in WorkersOf(c.sessions, o.id);
    var dropped := DropFleet(LeaveView(c, o.id), o.id);
    assert dropped.sessions.Keys == {} && dropped.clients == c.clients;
    assert dropped.sessions == map[];
    assert Retain(c.clients, {}) == map[];
  }

  /** The view opens the worker and a client attaches. */
  lemma AttachingRuns(o: Orchestrator, s: Session)
    ensures var st := AppState(Watching(o, s, map[s.id := 0], 1), map[s.id := Terminal([], [], [])], map[]);
            LeadsTo([User(PollSessions([s], [o])), User(NavigateSession(s.id)), User(ClientAttach(s.id, None, true))],
                    st, Desk(st, INITIAL, 0))
  {
    var polled := EMPTY.(core := EMPTY.core.(orchestrators := [o], sessions := map[s.id := s]));
    var (a0, a1) := (User(PollSessions([s], [o])), User(NavigateSession(s.id)));
    var a2 := User(ClientAttach(s.id, None, true));
    PollFindsThem(EMPTY, o, s);
    assert LeadsTo([], EMPTY, Desk(EMPTY, INITIAL, 0));
    OneMore([], EMPTY, Desk(EMPTY, INITIAL, 0), a0);
    assert [] + [a0] == [a0];
    OneMore([a0], polled, Desk(polled, INITIAL, 0), a1);
    var opened' := AppState(Watching(o, s, map[], 0), map[], map[]);
    assert Apply(polled, NavigateSession(s.id)) == opened';
    OneMore([a0] + [a1], opened', Desk(opened', INITIAL, 0), a2);
    assert [a0] + [a1] + [a2] == [a0, a1, a2];
    assert opened'.core.clients[s.id := 0] == map[s.id := 0];
  }

  /** Output of the client is held. */
  lemma OutputRuns(actions: seq<Action>, o: Orchestrator, s: Session, b: byte)
    requires var st := AppState(Watching(o, s, map[s.id := 0], 1), map[s.id := Terminal([], [], [])], map[]);
             LeadsTo(actions, st, Desk(st, INITIAL, 0))
    ensures var st := AppState(Watching(o, s, map[s.id := 0], 1), map[s.id := Terminal([], [], [])], map[]);
            var out := ClientOutput(s.id, 0, [b]);
            LeadsTo(actions + [Poll(Tick(0, Received(out), 0))],
                    AppState(st.core, map[s.id := Terminal([b], [], [])], map[ClientId(s.id, 0) := [b]]),
                    Desk(st, Held([out], Some(8_000_000), Some(3_000_000), None, false), 0))
  {
    var st := AppState(Watching(o, s, map[s.id := 0], 1), map[s.id := Terminal([], [], [])], map[]);
    var out := ClientOutput(s.id, 0, [b]);
    OneMore(actions, st, Desk(st, INITIAL, 0), Poll(Tick(0, Received(out), 0)));
    assert [] + [b] == [b];
    assert HandleEvent(st, out)
        == AppState(st.core, map[s.id := Terminal([b], [], [])], map[ClientId(s.id, 0) := [b]]);
    assert MergeOutput([], out) == [out];
  }

  /** The orchestrator is removed, which drops the worker's client, and the store still has both. */
  lemma RemovalRuns(actions: seq<Action>, direct: AppState, d: Desk, o: Orchestrator, s: Session)
    requires s.orchestratorId == Some(o.id) && s.id != o.id && WellFormed(d.held)
    requires LeadsTo(actions, direct, d)
    requires direct.core == d.app.core == Watching(o, s, map[s.id := 0], 1)
    requires direct.terminals.Keys == d.app.terminals.Keys == {s.id}
    ensures LeadsTo(actions + [User(RemoveOrchestrator(o.id)), User(PollSessions([s], [o]))],
                    direct.(core := Watching(o, s, map[], 1)),
                    d.(app := d.app.(core := Watching(o, s, map[], 1))))
  {
    var (a0, a1) := (User(RemoveOrchestrator(o.id)), User(PollSessions([s], [o])));
    var left := Watching(o, s, map[], 1).(orchestrators := [], sessions := map[]);
    RemovalLeavesView(o, s);
    OneMore(actions, direct, d, a0);
    assert direct.terminals - {o.id} == direct.terminals && d.app.terminals - {o.id} == d.app.terminals;
    var (direct', d') := (direct.(core := left), d.(app := d.app.(core := left)));
    assert DirectStep(direct, a0) == direct' && CoalescedStep(d, a0) == d';
    PollFindsThem(direct', o, s);
    PollFindsThem(d'.app, o, s);
    OneMore(actions + [a0], direct', d', a1);
    assert actions + [a0] + [a1] == actions + [a0, a1];
  }

  /** For every worker, its orchestrator and a byte: output arrives, is held, loses its client before the timer gives it
      to the app, and is missing from the emulator that stays on screen. */
  lemma AScreenLosesOutput(o: Orchestrator, s: Session, b: byte)
    requires s.orchestratorId == Some(o.id) && s.id != o.id
    ensures exists direct, d ::
      LeadsTo([User(PollSessions([s], [o])), User(NavigateSession(s.id)), User(ClientAttach(s.id, None, true))]
                + [Poll(Tick(0, Received(ClientOutput(s.id, 0, [b])), 0))]
                + [User(RemoveOrchestrator(o.id)), User(PollSessions([s], [o]))]
                + [Poll(Tick(3_000_000, Elapsed, 3_000_000))], direct, d)
      && d.held.outputs == [] && s.id in d.app.core.sessions
      && OnScreen(direct) == Some(Terminal([b], [], [])) && OnScreen(d.app) == Some(Terminal([], [], []))
  {
    var attach := [User(PollSessions([s], [o])), User(NavigateSession(s.id)), User(ClientAttach(s.id, None, true))];
    var out := ClientOutput(s.id, 0, [b]);
    AttachingRuns(o, s);
    OutputRuns(attach, o, s, b);
    var st := AppState(Watching(o, s, map[s.id := 0], 1), map[s.id := Terminal([], [], [])], map[]);
    var ahead := AppState(st.core, map[s.id := Terminal([b], [], [])], map[ClientId(s.id, 0) := [b]]);
    var held := Held([out], Some(8_000_000), Some(3_000_000), None, false);
    var heard := attach + [Poll(Tick(0, Received(out), 0))];
    RemovalRuns(heard, ahead, Desk(st, held, 0), o, s);
    var removed := heard + [User(RemoveOrchestrator(o.id)), User(PollSessions([s], [o]))];
    var (direct, app) := (ahead.(core := Watching(o, s, map[], 1)), st.(core := Watching(o, s, map[], 1)));
    var tick := Tick(3_000_000, Elapsed, 3_000_000);
    OneMore(removed, direct, Desk(app, held, 0), Poll(tick));
    HandleOne(app, out);
    assert CoalescedStep(Desk(app, held, 0), Poll(tick)) == Desk(app, INITIAL, 3_000_000);
  }
}
