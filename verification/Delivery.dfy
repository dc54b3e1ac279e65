/** What the coalescer owes its caller: only the channel's end ends the stream, and no other event waits. */
module Delivery {
  import opened NinoxTypes
  import opened Sequences
  import opened Coalescer
  import opened Conservation

  predicate HasClosed(ticks: seq<Tick>) {
    exists i :: 0 <= i < |ticks| && ticks[i].outcome.Closed?
  }

  lemma TurnClosesExactly(h: Held, t: Tick)
    requires WellFormed(h) && Legal(h, t)
    ensures Step(h, t).0.closed <==> t.outcome.Closed?
  {
  }

  /** The coalescer is closed exactly once its channel has closed: lag, timers and events leave it open. */
  lemma {:induction false} ClosedExactly(h: Held, clock: Time, ticks: seq<Tick>)
    requires WellFormed(h) && !h.closed && LegalRun(h, clock, ticks)
    ensures After(h, ticks).closed <==> HasClosed(ticks)
    decreases |ticks|
  {
    if ticks != [] {
      var h' := Step(h, ticks[0]).0;
      TurnClosesExactly(h, ticks[0]);
      if h'.closed {
        assert ticks[1..] == [];
        assert ticks[0].outcome.Closed?;
      } else {
        ClosedExactly(h', ticks[0].handled, ticks[1..]);
        assert forall i :: 0 <= i < |ticks[1..]| ==> ticks[1..][i] == ticks[i + 1];
        assert HasClosed(ticks) ==> HasClosed(ticks[1..]) by {
          if HasClosed(ticks) {
            var i :| 0 <= i < |ticks| && ticks[i].outcome.Closed?;
            assert ticks[1..][i - 1].outcome.Closed?;
          }
        }
      }
    }
  }

  /** A call that begins with the channel open returns the end exactly when a tick that it used closed the channel and
      nothing was held to give back; and if something was, it gives it back and the next call returns the end. */
  lemma {:induction false} NextEndsExactly(h: Held, clock: Time, ticks: seq<Tick>)
    requires WellFormed(h) && !h.closed && LegalRun(h, clock, ticks)
    ensures var (h', poll, rest) := NextRun(h, ticks);
            && (HasClosed(Used(h, ticks)) <==> h'.closed)
            && (poll == Ready(None) <==> h'.closed && Emitted(h, Used(h, ticks)) == [])
            && (h'.closed ==> rest == [] && NextRun(h', rest) == (h', Ready(None), []))
  {
    NextReturnsEmitted(h, ticks);
    NextEndsWithTheChannel(h, clock, ticks);
    var used, rest := Used(h, ticks), NextRun(h, ticks).2;
    LegalRunConcat(h, clock, used, rest);
    ClosedExactly(h, clock, used);
    if After(h, used).closed {
      assert rest == [];
      ClosedMeansReady(h, ticks);
    }
  }

  lemma {:induction false} ClosedMeansReady(h: Held, ticks: seq<Tick>)
    requires WellFormed(h) && NextRun(h, ticks).0.closed
    ensures NextRun(h, ticks).1.Ready?
    decreases |ticks|
  {
    if !h.closed && ticks != [] && Step(h, ticks[0]).1.Again? {
      ClosedMeansReady(Step(h, ticks[0]).0, ticks[1..]);
    }
  }

  // ---------------------------------------------------------------- every other event at once

  /** While the channel is open it may deliver any event at any time before the hard deadline; and an event that is
      neither output nor the pane tap is returned by the very call that takes it, behind held output only if that has
      to come first. */
  lemma ControlIsReturned(h: Held, clock: Time, before: seq<Tick>, t: Tick)
    requires WellFormed(h) && LegalRun(h, clock, before + [t])
    requires t.outcome.Received? && IsControl(t.outcome.event)
    ensures var held := After(h, before).outputs;
            NextRun(After(h, before), [t]).1
            == Ready(Some((if held != [] && MustFollow(held, t.outcome.event) then held else []) + [t.outcome.event]))
  {
    LegalRunConcat(h, clock, before, [t]);
    assert [] + [t.outcome.event] == [t.outcome.event];
  }

  lemma OpenChannelDelivers(h: Held, clock: Time, before: seq<Tick>, t: Tick)
    requires WellFormed(h) && !h.closed && LegalRun(h, clock, before) && !HasClosed(before)
    requires t.outcome.Received? && ClockAfter(clock, before) <= t.head <= t.handled
    requires After(h, before).outputs == []
    ensures LegalRun(h, clock, before + [t])
  {
    ClosedExactly(h, clock, before);
    LegalRunConcat(h, clock, before, [t]);
    assert [t][1..] == [];
  }

  /** A lag notice ends nothing: whatever came before, after it the channel delivers, and the next call returns what it
      delivers. */
  lemma LagLosesNoLaterEvent(h: Held, clock: Time, before: seq<Tick>, gap: Tick, t: Tick)
    requires WellFormed(h) && !h.closed && LegalRun(h, clock, before + [gap]) && gap.outcome.Lagged?
    requires t.outcome.Received? && IsControl(t.outcome.event) && gap.handled <= t.head <= t.handled
    ensures LegalRun(h, clock, (before + [gap]) + [t])
    ensures NextRun(After(h, before + [gap]), [t]).1 == Ready(Some([t.outcome.event]))
  {
    var ticks := before + [gap];
    GapEmptiesBuffer(h, clock, before, gap);
    LagIsNoClose(h, clock, before, gap);
    assert ClockAfter(clock, ticks) == gap.handled;
    OpenChannelDelivers(h, clock, ticks, t);
    ControlIsReturned(h, clock, ticks, t);
    assert [] + [t.outcome.event] == [t.outcome.event];
  }

  lemma LagIsNoClose(h: Held, clock: Time, before: seq<Tick>, gap: Tick)
    requires WellFormed(h) && !h.closed && LegalRun(h, clock, before + [gap]) && gap.outcome.Lagged?
    ensures !HasClosed(before + [gap])
  {
    LegalRunConcat(h, clock, before, [gap]);
    ClosedExactly(h, clock, before);
    assert LegalRun(After(h, before), ClockAfter(clock, before), [gap]);
    assert Legal(After(h, before), [gap][0]);
    forall i | 0 <= i < |before + [gap]| ensures !(before + [gap])[i].outcome.Closed? {
      assert i < |before| ==> !before[i].outcome.Closed?;
    }
  }
}
