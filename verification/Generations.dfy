/** Client generations keep stale output out, whatever order attaches, navigations, closes and output come in. */
module Generations {
  import opened NinoxTypes
  import opened Sequences
  import opened AppModel
  import opened Conservation
  import opened Transparency

  // ---------------------------------------------------------------- who is attached

  /** Every live client has a generation of its own, already given out. */
  ghost predicate DistinctGenerations(c: Core) {
    && (forall sid :: sid in c.clients ==> c.clients[sid] < c.nextGeneration)
    && (forall a, b :: a in c.clients && b in c.clients && a != b ==> c.clients[a] != c.clients[b])
  }

  lemma AttachingAddsOneClient(st: AppState, sid: SessionId, tail: Option<Bytes>, ok: bool)
    ensures var a := Attach(st, sid, tail, ok).core;
            a == st.core
            || (a.nextGeneration == st.core.nextGeneration + 1
                && a.clients == if ok then st.core.clients[sid := st.core.nextGeneration] else st.core.clients)
    ensures Attach(st, sid, tail, ok).core != st.core ==> sid !in st.core.clients
  {
  }

  /** Only a successful attach gives a session a client, and only where there was none. */
  lemma OnlyAttachAddsClients(st: AppState, m: Message)
    ensures (m.ClientAttach? && m.spawnSucceeds && m.sid !in st.core.clients
             && Apply(st, m).core.clients == st.core.clients[m.sid := st.core.nextGeneration]
             && Apply(st, m).core.nextGeneration == st.core.nextGeneration + 1)
         || (Apply(st, m).core.nextGeneration >= st.core.nextGeneration
             && forall sid :: sid in Apply(st, m).core.clients ==> st.core.Current(sid, Apply(st, m).core.clients[sid]))
  {
    if m.EngineEvents? {
      EventsNarrow(st, m.events);
    } else if m.EngineEvent? {
      EventsAttachNothing(st.core, m.event);
    } else if m.ClientAttach? {
      AttachingAddsOneClient(st, m.sid, m.initialTail, m.spawnSucceeds);
    } else if IsPlain(m) {
      ApplyPlainly(st, m);
      PlainMessagesAttachNothing(st.core, m);
    }
  }

  lemma {:induction false} GenerationsStayDistinct(st: AppState, ms: seq<Message>)
    requires DistinctGenerations(st.core)
    ensures DistinctGenerations(ApplyAll(st, ms).core)
    ensures ApplyAll(st, ms).core.nextGeneration >= st.core.nextGeneration
    decreases |ms|
  {
    if ms != [] {
      OnlyAttachAddsClients(st, ms[0]);
      GenerationsStayDistinct(Apply(st, ms[0]), ms[1..]);
    }
  }

  // ---------------------------------------------------------------- what an emulator was given

  function EventsOf(m: Message): seq<Event> {
    if m.EngineEvent? then [m.event] else if m.EngineEvents? then m.events else []
  }

  /** What one message has for client `g` of `sid`: output, a history page or a recovery token. */
  function MeantFor(m: Message, sid: SessionId, g: nat): Terminal {
    Terminal(BytesOf(EventsOf(m), sid, g),
             if m.HistoryFetched? && m.sid == sid && m.generation == g then [m.page] else [],
             if m.RecoverTerminalOutput? && m.sid == sid && m.generation == g then [m.token] else [])
  }

  function Feed(t: Terminal, more: Terminal): Terminal {
    Terminal(t.log + more.log, t.pages + more.pages, t.recoveries + more.recoveries)
  }

  /** Everything in a run that is meant for one client. */
  function Heard(ms: seq<Message>, sid: SessionId, g: nat): Terminal {
    if ms == [] then Terminal([], [], []) else Feed(MeantFor(ms[0], sid, g), Heard(ms[1..], sid, g))
  }

  lemma FeedAssociates(a: Terminal, b: Terminal, c: Terminal)
    ensures Feed(Feed(a, b), c) == Feed(a, Feed(b, c))
  {
    Associates(a.log, b.log, c.log);
    Associates(a.pages, b.pages, c.pages);
    Associates(a.recoveries, b.recoveries, c.recoveries);
  }

  lemma FeedNothing(t: Terminal)
    ensures Feed(t, Terminal([], [], [])) == t && Feed(Terminal([], [], []), t) == t
  {
  }

  lemma {:induction false} HeardConcat(xs: seq<Message>, ys: seq<Message>, sid: SessionId, g: nat)
    ensures Heard(xs + ys, sid, g) == Feed(Heard(xs, sid, g), Heard(ys, sid, g))
  {
    if xs == [] {
      assert xs + ys == ys;
      FeedNothing(Heard(ys, sid, g));
    } else {
      assert (xs + ys)[1..] == xs[1..] + ys;
      HeardConcat(xs[1..], ys, sid, g);
      FeedAssociates(MeantFor(xs[0], sid, g), Heard(xs[1..], sid, g), Heard(ys, sid, g));
    }
  }

  lemma EventFeedsExactly(st: AppState, e: Event, sid: SessionId, g: nat)
    requires HandleEvent(st, e).Shown(sid, g)
    ensures st.Shown(sid, g)
    ensures HandleEvent(st, e).terminals[sid]
            == Feed(st.terminals[sid], Terminal(if IsFrom(e, sid, g) then e.bytes else [], [], []))
  {
    if !e.ClientOutput? {
      EventsAttachNothing(st.core, e);
    }
    FeedNothing(st.terminals[sid]);
  }

  lemma {:induction false} EventsFeedExactly(st: AppState, es: seq<Event>, sid: SessionId, g: nat)
    requires HandleEvents(st, es).Shown(sid, g)
    ensures st.Shown(sid, g)
    ensures HandleEvents(st, es).terminals[sid] == Feed(st.terminals[sid], Terminal(BytesOf(es, sid, g), [], []))
    decreases |es|
  {
    if es == [] {
      FeedNothing(st.terminals[sid]);
    } else {
      var e := es[0];
      EventsFeedExactly(HandleEvent(st, e), es[1..], sid, g);
      EventFeedsExactly(st, e, sid, g);
      FeedAssociates(st.terminals[sid], Terminal(if IsFrom(e, sid, g) then e.bytes else [], [], []),
                     Terminal(BytesOf(es[1..], sid, g), [], []));
    }
  }

  /** Pages and recovery tokens reach the emulator of their own client only. */
  lemma OtherMessagesFeedExactly(st: AppState, m: Message, sid: SessionId, g: nat)
    requires !m.EngineEvent? && !m.EngineEvents? && !m.ClientAttach? && Apply(st, m).Shown(sid, g)
    ensures st.Shown(sid, g) && Apply(st, m).terminals[sid] == Feed(st.terminals[sid], MeantFor(m, sid, g))
  {
    if IsPlain(m) {
      PlainMessagesAttachNothing(st.core, m);
      PlainMessagesKeep(st, m, sid);
    }
    assert EventsOf(m) == [];
    FeedNothing(st.terminals[sid]);
  }

  lemma PlainMessagesKeep(st: AppState, m: Message, sid: SessionId)
    requires IsPlain(m) && sid in Apply(st, m).terminals
    ensures sid in st.terminals && Apply(st, m).terminals[sid] == st.terminals[sid]
  {
    ApplyPlainly(st, m);
  }

  /** A new emulator, with the bytes that tmux had captured if there were any. */
  function Hydrated(tail: Option<Bytes>): Terminal {
    match tail
    case Some(bytes) => Terminal(bytes, [], [])
    case None => Terminal([], [], [])
  }

  /** A step either attaches this very client or feeds its emulator exactly what is meant for it. */
  lemma StepFeedsExactly(st: AppState, m: Message, sid: SessionId, g: nat)
    requires Apply(st, m).Shown(sid, g)
    ensures if st.Shown(sid, g)
            then Apply(st, m).terminals[sid] == Feed(st.terminals[sid], MeantFor(m, sid, g))
            else m.ClientAttach? && m.sid == sid && m.spawnSucceeds && g == st.core.nextGeneration
                 && sid !in st.core.clients && Apply(st, m).terminals[sid] == Hydrated(m.initialTail)
  {
    if m.EngineEvents? {
      EventsFeedExactly(st, m.events, sid, g);
    } else if m.EngineEvent? {
      EventFeedsExactly(st, m.event, sid, g);
      One(m.event, sid, g);
    } else if m.ClientAttach? {
      if st.Shown(sid, g) {
        FeedNothing(st.terminals[sid]);
      }
    } else {
      OtherMessagesFeedExactly(st, m, sid, g);
    }
  }

  lemma ApplyLast(start: AppState, before: seq<Message>, m: Message)
    ensures ApplyAll(start, before + [m]) == Apply(ApplyAll(start, before), m)
  {
    ApplyAllConcat(start, before, [m]);
    assert [m][1..] == [];
  }

  lemma HeardLast(before: seq<Message>, m: Message, sid: SessionId, g: nat)
    ensures Heard(before + [m], sid, g) == Feed(Heard(before, sid, g), MeantFor(m, sid, g))
  {
    HeardConcat(before, [m], sid, g);
    assert [m][1..] == [];
    FeedNothing(MeantFor(m, sid, g));
  }

  /** `ms[i]` attached client `g` to `sid`, which had none, and the emulator holds that attach's tail and what came
      for the client since. */
  predicate AttachedAt(start: AppState, ms: seq<Message>, i: nat, sid: SessionId, g: nat, emulator: Terminal) {
    i < |ms|
    && ms[i].ClientAttach? && ms[i].sid == sid && ms[i].spawnSucceeds
    && var before := ApplyAll(start, ms[..i]).core;
       sid !in before.clients && before.nextGeneration == g
       && Apply(ApplyAll(start, ms[..i]), ms[i]).core.Current(sid, g)
       && emulator == Feed(Hydrated(ms[i].initialTail), Heard(ms[i + 1..], sid, g))
  }

  lemma AttachmentHears(start: AppState, before: seq<Message>, m: Message, i: nat, sid: SessionId, g: nat, t: Terminal)
    requires AttachedAt(start, before, i, sid, g, t)
    ensures AttachedAt(start, before + [m], i, sid, g, Feed(t, MeantFor(m, sid, g)))
  {
    var ms := before + [m];
    assert ms[..i] == before[..i] && ms[i + 1..] == before[i + 1..] + [m];
    HeardLast(before[i + 1..], m, sid, g);
    FeedAssociates(Hydrated(ms[i].initialTail), Heard(before[i + 1..], sid, g), MeantFor(m, sid, g));
  }

  /** From any app without clients: an emulator that a client draws on holds its attach-time tail followed by exactly
      the bytes, history pages and recovery tokens handled since that are tagged with its own session and generation,
      whatever stale output, closes, navigations and other attaches came in between. */
  lemma {:induction false} TranscriptIsPure(start: AppState, ms: seq<Message>, sid: SessionId, g: nat)
    requires start.core.clients == map[] && ApplyAll(start, ms).Shown(sid, g)
    ensures exists i: nat :: AttachedAt(start, ms, i, sid, g, ApplyAll(start, ms).terminals[sid])
    decreases |ms|
  {
    assert ms != [];
    var n := |ms| - 1;
    var before, m := ms[..n], ms[n];
    assert ms == before + [m];
    ApplyLast(start, before, m);
    var st := ApplyAll(start, before);
    StepFeedsExactly(st, m, sid, g);
    if st.Shown(sid, g) {
      TranscriptIsPure(start, before, sid, g);
      var i: nat :| AttachedAt(start, before, i, sid, g, st.terminals[sid]);
      AttachmentHears(start, before, m, i, sid, g, st.terminals[sid]);
    } else {
      assert ms[n + 1..] == [];
      FeedNothing(Apply(st, m).terminals[sid]);
      assert AttachedAt(start, ms, n, sid, g, Apply(st, m).terminals[sid]);
    }
  }

  // ---------------------------------------------------------------- automatic reattaches

  predicate NoRepeats(xs: seq<SessionId>) {
    forall i, j :: 0 <= i < j < |xs| ==> xs[i] != xs[j]
  }

  function Elements(xs: seq<SessionId>): set<SessionId> {
    set x | x in xs
  }

  /** From `before` to `after` the sessions in `more` were reattached, each once, none that had been before. */
  predicate Reattached(before: Core, after: Core, more: seq<SessionId>) {
    && after.reattaches == before.reattaches + more
    && after.reattachAttempted == before.reattachAttempted + Elements(more)
    && NoRepeats(more)
    && Elements(more) !! before.reattachAttempted
  }

  lemma ReattachedChain(a: Core, b: Core, c: Core, xs: seq<SessionId>, ys: seq<SessionId>)
    requires Reattached(a, b, xs) && Reattached(b, c, ys)
    ensures Reattached(a, c, xs + ys)
  {
    assert Elements(xs + ys) == Elements(xs) + Elements(ys);
    assert (a.reattaches + xs) + ys == a.reattaches + (xs + ys);
    forall i, j | 0 <= i < j < |xs + ys| ensures (xs + ys)[i] != (xs + ys)[j] {
      assert i < |xs| ==> xs[i] in Elements(xs);
      assert j >= |xs| ==> ys[j - |xs|] in Elements(ys);
    }
  }

  predicate SameReattaches(before: Core, after: Core) {
    after.reattaches == before.reattaches && after.reattachAttempted == before.reattachAttempted
  }

  lemma OtherEventsDoNotReattach(c: Core, e: Event)
    requires !e.ClientClosed?
    ensures SameReattaches(c, HandleCore(c, e))
  {
  }

  /** From `before` to `after` each session was reattached at most once, and not if that had been tried already. */
  ghost predicate AtMostOnce(before: Core, after: Core) {
    exists more :: Reattached(before, after, more)
  }

  lemma AtMostOnceChain(a: Core, b: Core, c: Core)
    requires AtMostOnce(a, b) && AtMostOnce(b, c)
    ensures AtMostOnce(a, c)
  {
    var xs :| Reattached(a, b, xs);
    var ys :| Reattached(b, c, ys);
    ReattachedChain(a, b, c, xs, ys);
  }

  lemma NothingReattached(before: Core, after: Core)
    requires SameReattaches(before, after)
    ensures AtMostOnce(before, after)
  {
    assert before.reattaches + [] == before.reattaches;
    assert Reattached(before, after, []);
  }

  lemma ReattachesOne(c: Core, sid: SessionId)
    ensures AtMostOnce(c, ReattachOnce(c, sid))
  {
    if c.Viewing(sid) && sid !in c.reattachAttempted {
      assert Elements([sid]) == {sid};
      assert Reattached(c, ReattachOnce(c, sid), [sid]);
    } else {
      NothingReattached(c, c);
    }
  }

  lemma CloseReattaches(c: Core, sid: SessionId, g: nat)
    ensures AtMostOnce(c, HandleCore(c, ClientClosed(sid, g)))
  {
    if c.Current(sid, g) {
      NothingReattached(c, Detach(c, sid));
      ReattachesOne(Detach(c, sid), sid);
      AtMostOnceChain(c, Detach(c, sid), ReattachOnce(Detach(c, sid), sid));
    } else {
      NothingReattached(c, c);
    }
  }

  lemma EventReattaches(c: Core, e: Event)
    ensures AtMostOnce(c, HandleCore(c, e))
  {
    if e.ClientClosed? {
      CloseReattaches(c, e.sid, e.generation);
    } else {
      OtherEventsDoNotReattach(c, e);
      NothingReattached(c, HandleCore(c, e));
    }
  }

  lemma {:induction false} EventsReattach(st: AppState, es: seq<Event>)
    ensures AtMostOnce(st.core, HandleEvents(st, es).core)
    decreases |es|
  {
    if es == [] {
      NothingReattached(st.core, st.core);
    } else {
      var st' := HandleEvent(st, es[0]);
      EventReattaches(st.core, es[0]);
      assert st'.core == HandleCore(st.core, es[0]);
      EventsReattach(st', es[1..]);
      AtMostOnceChain(st.core, st'.core, HandleEvents(st', es[1..]).core);
    }
  }

  lemma PollDoesNotReattach(c: Core, db: seq<Session>, dbOrchs: seq<Orchestrator>)
    ensures SameReattaches(c, AppModel.Poll(c, db, dbOrchs))
  {
  }

  lemma PanelDoesNotReattach(c: Core, panel: Panel)
    ensures SameReattaches(c, SwitchPanel(c, panel))
  {
  }

  lemma NavigationsDoNotReattach(c: Core, m: Message)
    requires OnlyNavigates(m)
    ensures SameReattaches(c, ApplyCore(c, m))
  {
    if m.SwitchDetailPanel? {
      PanelDoesNotReattach(c, m.panel);
    }
  }

  lemma DroppingDoesNotReattach(c: Core, id: SessionId)
    ensures SameReattaches(c, DropOrchestrator(c, id))
  {
    assert SameReattaches(c, LeaveView(c, id));
    assert SameReattaches(c, DropFleet(LeaveView(c, id), id));
  }

  lemma DetachingDoesNotReattach(c: Core, sid: SessionId)
    ensures SameReattaches(c, Detach(c, sid)) && SameReattaches(c, DropSession(c, sid))
  {
  }

  lemma PlainMessagesDoNotReattach(c: Core, m: Message)
    requires IsPlain(m) && !m.NavigateSession?
    ensures SameReattaches(c, ApplyCore(c, m))
  {
    if OnlyNavigates(m) {
      NavigationsDoNotReattach(c, m);
    } else if m.PollSessions? {
      PollDoesNotReattach(c, m.dbSessions, m.dbOrchestrators);
    } else if m.RemoveOrchestrator? {
      DroppingDoesNotReattach(c, m.orchId);
    } else {
      DetachingDoesNotReattach(c, m.sid);
    }
  }

  lemma MessageReattaches(st: AppState, m: Message)
    requires !m.NavigateSession?
    ensures AtMostOnce(st.core, Apply(st, m).core)
  {
    if m.EngineEvents? {
      EventsReattach(st, m.events);
    } else if m.EngineEvent? {
      EventReattaches(st.core, m.event);
      assert Apply(st, m).core == HandleCore(st.core, m.event);
    } else {
      if IsPlain(m) {
        PlainMessagesDoNotReattach(st.core, m);
      }
      NothingReattached(st.core, Apply(st, m).core);
    }
  }

  /** However many clients die, as long as the user does not navigate each session is reattached at most once, and
      not at all if that was already tried. */
  lemma {:induction false} ReattachesAtMostOnce(st: AppState, ms: seq<Message>)
    requires forall i :: 0 <= i < |ms| ==> !ms[i].NavigateSession?
    ensures AtMostOnce(st.core, ApplyAll(st, ms).core)
    decreases |ms|
  {
    if ms == [] {
      NothingReattached(st.core, st.core);
    } else {
      var st' := Apply(st, ms[0]);
      MessageReattaches(st, ms[0]);
      ReattachesAtMostOnce(st', ms[1..]);
      AtMostOnceChain(st.core, st'.core, ApplyAll(st', ms[1..]).core);
    }
  }

  /** Exactly the sessions in `more`, each once, were reattached since, and they are the ones marked as tried. */
  ghost predicate ReattachedSince(earlier: seq<SessionId>, now: Core) {
    exists more :: NoRepeats(more) && now.reattaches == earlier + more && now.reattachAttempted == Elements(more)
  }

  lemma ForgivenThenOnce(shown: Core, now: Core)
    requires shown.reattachAttempted == {} && AtMostOnce(shown, now)
    ensures ReattachedSince(shown.reattaches, now)
  {
    var more :| Reattached(shown, now, more);
    assert {} + Elements(more) == Elements(more);
  }

  lemma NavigatingForgives(st: AppState, sid: SessionId)
    ensures Apply(st, NavigateSession(sid)).core.reattachAttempted == {}
    ensures Apply(st, NavigateSession(sid)).core.reattaches == st.core.reattaches
  {
    assert Apply(st, NavigateSession(sid)).core == Navigate(st.core, sid);
  }

  /** Between one navigation and the next a session is reattached at most once: the navigation forgives the earlier
      attempts and reattaches nothing itself. */
  lemma OneReattachPerNavigation(st: AppState, sid: SessionId, between: seq<Message>)
    requires forall i :: 0 <= i < |between| ==> !between[i].NavigateSession?
    ensures ReattachedSince(st.core.reattaches, ApplyAll(Apply(st, NavigateSession(sid)), between).core)
  {
    NavigatingForgives(st, sid);
    var shown := Apply(st, NavigateSession(sid));
    ReattachesAtMostOnce(shown, between);
    ForgivenThenOnce(shown.core, ApplyAll(shown, between).core);
  }
}
