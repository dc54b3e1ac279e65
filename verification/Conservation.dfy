/** Nothing is lost, doubled or reordered on the way through the coalescer. */
module Conservation {
  import opened NinoxTypes
  import opened Coalescer
  import opened Sequences

  predicate IsFrom(e: Event, sid: SessionId, g: nat) {
    e.ClientOutput? && e.sid == sid && e.generation == g
  }

  /** The PTY bytes of one client in a stream, in order. */
  function BytesOf(es: seq<Event>, sid: SessionId, g: nat): Bytes {
    if es == [] then []
    else (if IsFrom(es[0], sid, g) then es[0].bytes else []) + BytesOf(es[1..], sid, g)
  }

  predicate IsControl(e: Event) {
    !e.ClientOutput? && !e.TerminalOutput?
  }

  /** The events that are neither PTY bytes nor the duplicate pane tap. */
  function Controls(es: seq<Event>): seq<Event> {
    if es == [] then [] else (if IsControl(es[0]) then [es[0]] else []) + Controls(es[1..])
  }

  lemma {:induction false} BytesConcat(xs: seq<Event>, ys: seq<Event>, sid: SessionId, g: nat)
    ensures BytesOf(xs + ys, sid, g) == BytesOf(xs, sid, g) + BytesOf(ys, sid, g)
  {
    if xs == [] {
      assert xs + ys == ys;
    } else {
      assert (xs + ys)[1..] == xs[1..] + ys;
      BytesConcat(xs[1..], ys, sid, g);
      Associates(if IsFrom(xs[0], sid, g) then xs[0].bytes else [], BytesOf(xs[1..], sid, g), BytesOf(ys, sid, g));
    }
  }

  lemma {:induction false} ControlsConcat(xs: seq<Event>, ys: seq<Event>)
    ensures Controls(xs + ys) == Controls(xs) + Controls(ys)
  {
    if xs == [] {
      assert xs + ys == ys;
    } else {
      assert (xs + ys)[1..] == xs[1..] + ys;
      ControlsConcat(xs[1..], ys);
      Associates(if IsControl(xs[0]) then [xs[0]] else [], Controls(xs[1..]), Controls(ys));
    }
  }

  lemma {:induction false} NoControls(outputs: seq<Event>)
    requires AllOutput(outputs)
    ensures Controls(outputs) == []
  {
    if outputs != [] {
      NoControls(outputs[1..]);
    }
  }

  lemma One(e: Event, sid: SessionId, g: nat)
    ensures BytesOf([e], sid, g) == if IsFrom(e, sid, g) then e.bytes else []
    ensures Controls([e]) == if IsControl(e) then [e] else []
  {
    assert [e][1..] == [];
  }

  /** The last output of a buffer, put back or replaced by a longer one, adds its own bytes at the end. */
  lemma Snoc(outputs: seq<Event>, e: Event, sid: SessionId, g: nat)
    ensures BytesOf(outputs + [e], sid, g) == BytesOf(outputs, sid, g) + if IsFrom(e, sid, g) then e.bytes else []
  {
    BytesConcat(outputs, [e], sid, g);
    One(e, sid, g);
  }

  lemma MergeKeepsBytes(outputs: seq<Event>, e: Event, sid: SessionId, g: nat)
    requires AllOutput(outputs) && e.ClientOutput?
    ensures BytesOf(MergeOutput(outputs, e), sid, g) == BytesOf(outputs + [e], sid, g)
  {
    var n := |outputs|;
    if n > 0 && SameClient(outputs[n - 1], e) {
      var init, last := outputs[..n - 1], outputs[n - 1];
      var merged := ClientOutput(e.sid, e.generation, last.bytes + e.bytes);
      assert outputs == init + [last];
      Snoc(outputs, e, sid, g);
      Snoc(init, merged, sid, g);
      Snoc(init, last, sid, g);
    }
  }

  lemma Regroup(y: Bytes, e: Bytes, o: Bytes, h0: Bytes, h1: Bytes, r1: Bytes, r2: Bytes)
    requires y + h1 == h0 + r1 && e + o == h1 + r2
    ensures (y + e) + o == h0 + (r1 + r2)
  {
    assert (y + e) + o == y + (e + o);
    assert y + (h1 + r2) == (y + h1) + r2;
  }

  /** What a turn does with an event it received: keeps it, drops the pane tap, flushes before it, or lets it pass. */
  lemma ReceivingTurn(h: Held, t: Tick)
    requires WellFormed(h) && Legal(h, t) && t.outcome.Received?
    ensures var (h', turn) := Step(h, t);
            var e := t.outcome.event;
            if e.ClientOutput? then h'.outputs == MergeOutput(h.outputs, e) && YieldOf(turn) == []
            else if e.TerminalOutput? then h'.outputs == h.outputs && YieldOf(turn) == []
            else ((YieldOf(turn) == h.outputs + [e] && h'.outputs == [])
                  || (YieldOf(turn) == [e] && h'.outputs == h.outputs))
  {
  }

  lemma FlushingTurn(h: Held, t: Tick)
    requires WellFormed(h) && Legal(h, t) && !t.outcome.Received?
    ensures YieldOf(Step(h, t).1) == h.outputs && Step(h, t).0.outputs == [] && ReceivedEvents([t]) == []
  {
  }

  lemma ReceivedOne(t: Tick)
    requires t.outcome.Received?
    ensures ReceivedEvents([t]) == [t.outcome.event]
  {
    assert [t][1..] == [];
  }

  lemma TurnConserves(h: Held, t: Tick, sid: SessionId, g: nat)
    requires WellFormed(h) && Legal(h, t)
    ensures var (h', turn) := Step(h, t);
            && BytesOf(YieldOf(turn), sid, g) + BytesOf(h'.outputs, sid, g)
               == BytesOf(h.outputs, sid, g) + BytesOf(ReceivedEvents([t]), sid, g)
            && Controls(YieldOf(turn)) == Controls(ReceivedEvents([t]))
  {
    NoControls(h.outputs);
    if t.outcome.Received? {
      var e := t.outcome.event;
      ReceivingTurn(h, t);
      ReceivedOne(t);
      One(e, sid, g);
      BytesConcat(h.outputs, [e], sid, g);
      ControlsConcat(h.outputs, [e]);
      if e.ClientOutput? {
        MergeKeepsBytes(h.outputs, e, sid, g);
      }
    } else {
      FlushingTurn(h, t);
    }
  }

  lemma FirstTurn(h: Held, ticks: seq<Tick>)
    requires WellFormed(h) && ticks != []
    ensures Emitted(h, ticks) == YieldOf(Step(h, ticks[0]).1) + Emitted(Step(h, ticks[0]).0, ticks[1..])
    ensures After(h, ticks) == After(Step(h, ticks[0]).0, ticks[1..])
    ensures ReceivedEvents(ticks) == ReceivedEvents([ticks[0]]) + ReceivedEvents(ticks[1..])
  {
    assert ticks == [ticks[0]] + ticks[1..];
    ReceivedConcat([ticks[0]], ticks[1..]);
  }

  lemma {:induction false} RunKeepsBytes(h: Held, clock: Time, ticks: seq<Tick>, sid: SessionId, g: nat)
    requires WellFormed(h) && LegalRun(h, clock, ticks)
    ensures BytesOf(Emitted(h, ticks), sid, g) + BytesOf(After(h, ticks).outputs, sid, g)
            == BytesOf(h.outputs, sid, g) + BytesOf(ReceivedEvents(ticks), sid, g)
    decreases |ticks|
  {
    if ticks != [] {
      var t, rest := ticks[0], ticks[1..];
      var (h', turn) := Step(h, t);
      TurnConserves(h, t, sid, g);
      RunKeepsBytes(h', t.handled, rest, sid, g);
      FirstTurn(h, ticks);
      BytesConcat(ReceivedEvents([t]), ReceivedEvents(rest), sid, g);
      BytesConcat(YieldOf(turn), Emitted(h', rest), sid, g);
      Regroup(BytesOf(YieldOf(turn), sid, g), BytesOf(Emitted(h', rest), sid, g),
              BytesOf(After(h', rest).outputs, sid, g),
              BytesOf(h.outputs, sid, g), BytesOf(h'.outputs, sid, g),
              BytesOf(ReceivedEvents([t]), sid, g), BytesOf(ReceivedEvents(rest), sid, g));
    }
  }

  lemma {:induction false} RunKeepsControls(h: Held, clock: Time, ticks: seq<Tick>)
    requires WellFormed(h) && LegalRun(h, clock, ticks)
    ensures Controls(Emitted(h, ticks)) == Controls(ReceivedEvents(ticks))
    decreases |ticks|
  {
    if ticks != [] {
      var t, rest := ticks[0], ticks[1..];
      var (h', turn) := Step(h, t);
      TurnConserves(h, t, "", 0);
      RunKeepsControls(h', t.handled, rest);
      FirstTurn(h, ticks);
      ControlsConcat(ReceivedEvents([t]), ReceivedEvents(rest));
      ControlsConcat(YieldOf(turn), Emitted(h', rest));
    }
  }

  /** At every point of every run the bytes of a client received so far are those emitted followed by those held,
      and every other event but the pane tap has been emitted exactly once, in the order received. */
  lemma RunConserves(h: Held, clock: Time, ticks: seq<Tick>, sid: SessionId, g: nat)
    requires WellFormed(h) && LegalRun(h, clock, ticks)
    ensures BytesOf(Emitted(h, ticks), sid, g) + BytesOf(After(h, ticks).outputs, sid, g)
            == BytesOf(h.outputs, sid, g) + BytesOf(ReceivedEvents(ticks), sid, g)
    ensures Controls(Emitted(h, ticks)) == Controls(ReceivedEvents(ticks))
  {
    RunKeepsBytes(h, clock, ticks, sid, g);
    RunKeepsControls(h, clock, ticks);
  }

  /** A lag notice is received with nothing left to hold. */
  lemma GapEmptiesBuffer(h: Held, clock: Time, before: seq<Tick>, gap: Tick)
    requires WellFormed(h) && LegalRun(h, clock, before + [gap]) && !gap.outcome.Received? && !gap.outcome.Overdue?
    ensures After(h, before + [gap]).outputs == []
    ensures ReceivedEvents(before + [gap]) == ReceivedEvents(before)
  {
    LegalRunConcat(h, clock, before, [gap]);
    AfterConcat(h, before, [gap]);
    OneTick(After(h, before), gap);
    ReceivedConcat(before, [gap]);
    assert [gap][1..] == [];
  }

  /** Lag empties the buffer: what is emitted up to a gap carries exactly what was received before it, and what is
      emitted or held later carries exactly what was received later. So no chunk spans the gap. */
  lemma NoChunkSpansAGap(before: seq<Tick>, gap: Tick, later: seq<Tick>, sid: SessionId, g: nat)
    requires gap.outcome.Lagged?
    requires LegalRun(INITIAL, 0, (before + [gap]) + later)
    ensures var upTo, mid := before + [gap], After(INITIAL, before + [gap]);
            && Emitted(INITIAL, upTo + later) == Emitted(INITIAL, upTo) + Emitted(mid, later)
            && BytesOf(Emitted(INITIAL, upTo), sid, g) == BytesOf(ReceivedEvents(before), sid, g)
            && BytesOf(Emitted(mid, later), sid, g) + BytesOf(After(mid, later).outputs, sid, g)
               == BytesOf(ReceivedEvents(later), sid, g)
  {
    var upTo := before + [gap];
    LegalRunConcat(INITIAL, 0, upTo, later);
    EmittedConcat(INITIAL, upTo, later);
    GapEmptiesBuffer(INITIAL, 0, before, gap);
    DrainedRunConserves(INITIAL, 0, upTo, sid, g);
    var mid := After(INITIAL, upTo);
    RunConserves(mid, ClockAfter(0, upTo), later, sid, g);
    assert BytesOf(mid.outputs, sid, g) == [];
    assert [] + BytesOf(ReceivedEvents(later), sid, g) == BytesOf(ReceivedEvents(later), sid, g);
  }

  lemma DrainedRunConserves(h: Held, clock: Time, ticks: seq<Tick>, sid: SessionId, g: nat)
    requires WellFormed(h) && LegalRun(h, clock, ticks) && h.outputs == [] && After(h, ticks).outputs == []
    ensures BytesOf(Emitted(h, ticks), sid, g) == BytesOf(ReceivedEvents(ticks), sid, g)
    ensures Controls(Emitted(h, ticks)) == Controls(ReceivedEvents(ticks))
  {
    RunConserves(h, clock, ticks, sid, g);
    assert BytesOf([], sid, g) == [];
    assert [] + BytesOf(ReceivedEvents(ticks), sid, g) == BytesOf(ReceivedEvents(ticks), sid, g);
    assert BytesOf(Emitted(h, ticks), sid, g) + [] == BytesOf(Emitted(h, ticks), sid, g);
  }

  /** Once the channel has closed every byte has been emitted, exactly once, and `next` returns the end for good. */
  lemma ClosingDrains(before: seq<Tick>, close: Tick, sid: SessionId, g: nat, more: seq<Tick>)
    requires LegalRun(INITIAL, 0, before + [close]) && close.outcome.Closed?
    ensures var h := After(INITIAL, before + [close]);
            && BytesOf(Emitted(INITIAL, before + [close]), sid, g) == BytesOf(ReceivedEvents(before), sid, g)
            && Controls(Emitted(INITIAL, before + [close])) == Controls(ReceivedEvents(before))
            && NextRun(h, more) == (h, Ready(None), more)
            && (LegalRun(h, close.handled, more) ==> more == [])
  {
    GapEmptiesBuffer(INITIAL, 0, before, close);
    DrainedRunConserves(INITIAL, 0, before + [close], sid, g);
    LegalRunConcat(INITIAL, 0, before, [close]);
    AfterConcat(INITIAL, before, [close]);
    OneTick(After(INITIAL, before), close);
  }
}
