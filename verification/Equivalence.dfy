/** The coalesced stream means the same to the app as the raw one. */
module Equivalence {
  import opened NinoxTypes
  import opened Sequences
  import opened AppModel
  import opened Coalescer

  // ---------------------------------------------------------------- one event against one output

  /** A merged chunk feeds an emulator exactly what its parts would. */
  lemma MergedOutputFeedsTheSame(st: AppState, a: Event, b: Event)
    requires a.ClientOutput? && b.ClientOutput? && SameClient(a, b)
    ensures HandleEvent(st, ClientOutput(a.sid, a.generation, a.bytes + b.bytes)) == HandleEvent(HandleEvent(st, a), b)
  {
    if st.Shown(a.sid, a.generation) {
      var log := st.terminals[a.sid].log;
      assert log + (a.bytes + b.bytes) == (log + a.bytes) + b.bytes;
      var t := st.Transcript(ClientId(a.sid, a.generation));
      assert t + (a.bytes + b.bytes) == (t + a.bytes) + b.bytes;
    }
  }

  lemma HandleOne(st: AppState, e: Event)
    ensures HandleEvents(st, [e]) == HandleEvent(st, e)
  {
    assert [e][1..] == [];
  }

  lemma PushKeepsMeaning(st: AppState, outputs: seq<Event>, e: Event)
    requires AllOutput(outputs) && e.ClientOutput?
    ensures HandleEvents(st, MergeOutput(outputs, e)) == HandleEvents(st, outputs + [e])
  {
    var n := |outputs|;
    if n > 0 && SameClient(outputs[n - 1], e) {
      var last := outputs[n - 1];
      var merged := ClientOutput(e.sid, e.generation, last.bytes + e.bytes);
      var st' := HandleEvents(st, outputs[..n - 1]);
      assert outputs == outputs[..n - 1] + [last];
      HandleEventsConcat(st, outputs[..n - 1], [merged]);
      HandleEventsConcat(st, outputs[..n - 1], [last]);
      HandleEventsConcat(st, outputs, [e]);
      HandleOne(st', merged);
      HandleOne(st', last);
      HandleOne(HandleEvent(st', last), e);
      MergedOutputFeedsTheSame(st', last, e);
    }
  }

  /** The two events that take an emulator away from under an output. */
  predicate TakesDown(e: Event, o: Event)
    requires o.ClientOutput?
  {
    || (e.ClientClosed? && e.sid == o.sid && e.generation == o.generation)
    || (e.SessionDone? && e.sid == o.sid)
  }

  lemma OutputChangesNoField(st: AppState, o: Event)
    requires o.ClientOutput?
    ensures HandleEvent(st, o).core == st.core
    ensures !st.Shown(o.sid, o.generation) ==> HandleEvent(st, o) == st
  {
  }

  lemma ClosingClients(c: Core, e: Event)
    requires e.ClientClosed? || e.SessionDone?
    ensures HandleCore(c, e).clients == c.clients - ClosedBy(c, e)
  {
    MinusNothing(c.clients);
  }

  lemma OthersKeepClients(c: Core, e: Event)
    requires !e.ClientClosed? && !e.SessionDone?
    ensures HandleCore(c, e).clients == c.clients
  {
  }

  /** An event leaves the clients alone except the one it closes. */
  lemma ClientsAfter(c: Core, e: Event)
    ensures HandleCore(c, e).clients == c.clients - ClosedBy(c, e)
  {
    if e.ClientClosed? || e.SessionDone? {
      ClosingClients(c, e);
    } else {
      OthersKeepClients(c, e);
      MinusNothing(c.clients);
    }
  }

  /** The output is shown both before and after the event, or not at all. */
  lemma ShownAlike(st: AppState, o: Event, e: Event)
    requires o.ClientOutput? && !e.ClientOutput? && !TakesDown(e, o)
    ensures HandleEvent(st, e).Shown(o.sid, o.generation) <==> st.Shown(o.sid, o.generation)
    ensures st.Shown(o.sid, o.generation) ==> o.sid !in ClosedBy(st.core, e)
  {
    ClientsAfter(st.core, e);
  }

  lemma OvertakeHarmless(st: AppState, o: Event, e: Event)
    requires o.ClientOutput? && !e.ClientOutput? && !TakesDown(e, o)
    ensures HandleEvent(HandleEvent(st, o), e) == HandleEvent(HandleEvent(st, e), o)
  {
    var fed, gone := HandleEvent(st, o), ClosedBy(st.core, e);
    OutputChangesNoField(st, o);
    OutputChangesNoField(HandleEvent(st, e), o);
    ShownAlike(st, o, e);
    if st.Shown(o.sid, o.generation) {
      assert fed.terminals - gone == (st.terminals - gone)[o.sid := fed.terminals[o.sid]];
    }
  }

  /** An event that takes the client of the output away: after it nothing shows the output, before it the output reaches
      an emulator that goes with the event. */
  lemma TakingDown(st: AppState, o: Event, e: Event)
    requires o.ClientOutput? && TakesDown(e, o)
    ensures HandleEvent(HandleEvent(st, e), o) == HandleEvent(st, e)
    ensures HandleEvent(HandleEvent(st, o), e)
            == HandleEvent(st, e).(transcripts := HandleEvent(st, o).transcripts)
  {
    OutputChangesNoField(st, o);
    ClientsAfter(st.core, e);
    OutputChangesNoField(HandleEvent(st, e), o);
    if st.Shown(o.sid, o.generation) {
      assert o.sid in ClosedBy(st.core, e);
    }
  }

  /** What an event and an output leave in the app's fields does not depend on their order: every event may pass every
      output as far as the fields and the emulators that remain can tell. */
  lemma OvertakingChangesNoField(st: AppState, o: Event, e: Event)
    requires o.ClientOutput? && !e.ClientOutput?
    ensures HandleEvent(HandleEvent(st, o), e).core == HandleEvent(HandleEvent(st, e), o).core
    ensures HandleEvent(HandleEvent(st, o), e).terminals == HandleEvent(HandleEvent(st, e), o).terminals
  {
    if TakesDown(e, o) {
      TakingDown(st, o, e);
    } else {
      OvertakeHarmless(st, o, e);
    }
  }

  /** Some attachment's emulator was ever given different bytes. */
  ghost predicate FedDifferently(a: AppState, b: AppState) {
    exists k :: a.Transcript(k) != b.Transcript(k)
  }

  /** What the order decides is which bytes an emulator was ever given: it loses the output exactly when the output is
      on screen, carries bytes, and the event that passes it takes its client away. */
  lemma OvertakingLosesBytesExactly(st: AppState, o: Event, e: Event)
    requires o.ClientOutput? && !e.ClientOutput?
    ensures FedDifferently(HandleEvent(HandleEvent(st, o), e), HandleEvent(HandleEvent(st, e), o))
       <==> st.Shown(o.sid, o.generation) && o.bytes != [] && TakesDown(e, o)
  {
    var a, b := HandleEvent(HandleEvent(st, o), e), HandleEvent(HandleEvent(st, e), o);
    if !TakesDown(e, o) {
      OvertakeHarmless(st, o, e);
    } else {
      TakingDown(st, o, e);
      var k := ClientId(o.sid, o.generation);
      if st.Shown(o.sid, o.generation) {
        assert a.Transcript(k) == st.Transcript(k) + o.bytes && b.Transcript(k) == st.Transcript(k);
        assert forall j :: j != k ==> a.Transcript(j) == b.Transcript(j);
      }
    }
  }

  /** So `MustFollow` holds back exactly the events that could cost a shown output, and a removed orchestrator, which
      could not. */
  lemma MustFollowIsExact(o: Event, e: Event)
    requires o.ClientOutput? && o.bytes != [] && !e.ClientOutput?
    ensures MustFollow([o], e) <==>
              e.OrchestratorRemoved?
              || exists st :: FedDifferently(HandleEvent(HandleEvent(st, o), e), HandleEvent(HandleEvent(st, e), o))
  {
    assert [o][0] == o;
    assert MustFollow([o], e) <==> TakesDown(e, o) || e.OrchestratorRemoved?;
    var st := LiveClient(o.sid, o.generation);
    OvertakingLosesBytesExactly(st, o, e);
    if !TakesDown(e, o) {
      forall st ensures !FedDifferently(HandleEvent(HandleEvent(st, o), e), HandleEvent(HandleEvent(st, e), o)) {
        OvertakingLosesBytesExactly(st, o, e);
      }
    }
  }

  function LiveClient(sid: SessionId, g: nat): AppState {
    AppState(EMPTY.core.(clients := map[sid := g]), map[sid := Terminal([], [], [])], map[])
  }

  // ---------------------------------------------------------------- whole runs

  lemma {:induction false} OvertakeAll(st: AppState, outputs: seq<Event>, e: Event)
    requires AllOutput(outputs) && !e.ClientOutput? && !MustFollow(outputs, e)
    ensures HandleEvents(st, outputs + [e]) == HandleEvents(st, [e] + outputs)
    decreases |outputs|
  {
    HandleOne(st, e);
    if outputs == [] {
      assert outputs + [e] == [e] + outputs;
    } else {
      var o, rest := outputs[0], outputs[1..];
      var fed := HandleEvent(st, o);
      assert (outputs + [e])[1..] == rest + [e];
      OvertakeAll(fed, rest, e);
      assert ([e] + rest)[1..] == rest;
      OvertakeHarmless(st, o, e);
      assert ([e] + outputs)[1..] == outputs;
    }
  }

  /** One loop turn neither loses nor reorders anything the app could notice. */
  lemma TurnKeepsMeaning(st: AppState, h: Held, t: Tick)
    requires WellFormed(h) && Legal(h, t)
    ensures var (h', turn) := Step(h, t);
            HandleEvents(st, YieldOf(turn) + h'.outputs) == HandleEvents(st, h.outputs + ReceivedEvents([t]))
  {
    var (h', turn) := Step(h, t);
    assert [t][1..] == [];
    if t.outcome.Received? {
      var e := t.outcome.event;
      assert ReceivedEvents([t]) == [e];
      if e.ClientOutput? {
        PushKeepsMeaning(st, h.outputs, e);
        assert YieldOf(turn) + h'.outputs == MergeOutput(h.outputs, e);
      } else if e.TerminalOutput? {
        HandleEventsConcat(st, h.outputs, [e]);
        HandleOne(HandleEvents(st, h.outputs), e);
        assert YieldOf(turn) + h'.outputs == h.outputs;
      } else if MustFollow(h.outputs, e) || h.outputs == [] {
        assert YieldOf(turn) + h'.outputs == h.outputs + [e];
      } else {
        OvertakeAll(st, h.outputs, e);
        assert YieldOf(turn) + h'.outputs == [e] + h.outputs;
      }
    } else {
      assert YieldOf(turn) + h'.outputs == h.outputs + ReceivedEvents([t]);
    }
  }

  /** Chains two equal-meaning stretches: `y` is emitted and `h1` held after receiving `r1`, then `es` is emitted
      and `h2` held after receiving `r2`. */
  lemma ChainMeaning(st: AppState, h0: seq<Event>, y: seq<Event>, h1: seq<Event>, r1: seq<Event>,
                     es: seq<Event>, h2: seq<Event>, r2: seq<Event>)
    requires HandleEvents(st, y + h1) == HandleEvents(st, h0 + r1)
    requires HandleEvents(HandleEvents(st, y), es + h2) == HandleEvents(HandleEvents(st, y), h1 + r2)
    ensures HandleEvents(st, (y + es) + h2) == HandleEvents(st, h0 + (r1 + r2))
  {
    calc {
      HandleEvents(st, (y + es) + h2);
      { Associates(y, es, h2); HandleEventsConcat(st, y, es + h2); }
      HandleEvents(HandleEvents(st, y), h1 + r2);
      { HandleEventsConcat(st, y, h1 + r2); Associates(y, h1, r2); }
      HandleEvents(st, (y + h1) + r2);
      { HandleEventsConcat(st, y + h1, r2); HandleEventsConcat(st, h0 + r1, r2); }
      HandleEvents(st, (h0 + r1) + r2);
      { Associates(h0, r1, r2); }
      HandleEvents(st, h0 + (r1 + r2));
    }
  }

  /** Whatever was held before, handling the emitted batches and then what is still held leaves the app exactly
      where handling every received event at once does. This covers lag too: what was received is kept. */
  lemma {:induction false} CoalescingKeepsMeaning(st: AppState, h: Held, clock: Time, ticks: seq<Tick>)
    requires WellFormed(h) && LegalRun(h, clock, ticks)
    ensures HandleEvents(st, Emitted(h, ticks) + After(h, ticks).outputs)
            == HandleEvents(st, h.outputs + ReceivedEvents(ticks))
    decreases |ticks|
  {
    if ticks == [] {
      assert Emitted(h, ticks) + After(h, ticks).outputs == h.outputs + ReceivedEvents(ticks);
    } else {
      var t, rest := ticks[0], ticks[1..];
      var (h', turn) := Step(h, t);
      TurnKeepsMeaning(st, h, t);
      CoalescingKeepsMeaning(HandleEvents(st, YieldOf(turn)), h', t.handled, rest);
      ChainMeaning(st, h.outputs, YieldOf(turn), h'.outputs, ReceivedEvents([t]),
                   Emitted(h', rest), After(h', rest).outputs, ReceivedEvents(rest));
      assert ticks == [t] + rest;
      ReceivedConcat([t], rest);
    }
  }

  /** Once the channel has closed, the emitted stream alone means what the received one did. */
  lemma ClosedStreamMeansTheSame(st: AppState, ticks: seq<Tick>)
    requires LegalRun(INITIAL, 0, ticks) && After(INITIAL, ticks).closed
    ensures HandleEvents(st, Emitted(INITIAL, ticks)) == HandleEvents(st, ReceivedEvents(ticks))
  {
    CoalescingKeepsMeaning(st, INITIAL, 0, ticks);
    assert Emitted(INITIAL, ticks) + [] == Emitted(INITIAL, ticks);
    assert [] + ReceivedEvents(ticks) == ReceivedEvents(ticks);
  }
}
