/** How long a burst is held: 3 ms of quiet or 8 ms in all, not counting the time the app spends on the events
    that overtook it. */
module Timing {
  import opened NinoxTypes
  import opened Coalescer

  /** What an observer of the ticks notes about the burst being held: when its first and latest output were
      handled, how long dispatching has paused it since then, and since when it is paused now. */
  datatype Burst = Burst(first: Time, last: Time, paused: nat, pausedSinceLast: nat, dispatchFrom: Option<Time>)

  const NO_BURST := Burst(0, 0, 0, 0, None)

  predicate PollsOutput(t: Tick) {
    t.outcome.Received? && t.outcome.event.ClientOutput?
  }

  /** The observer at the head of a turn, when a pause ends. */
  function AtHead(b: Burst, head: Time): Burst {
    if b.dispatchFrom.None? then b
    else
      var pause := Since(head, b.dispatchFrom.value);
      b.(paused := b.paused + pause, pausedSinceLast := b.pausedSinceLast + pause, dispatchFrom := None)
  }

  function Observe(h: Held, b: Burst, t: Tick): Burst
    requires WellFormed(h)
  {
    var (h', turn) := Step(h, t);
    var noted :=
      if !PollsOutput(t) then AtHead(b, t.head)
      else if h.outputs == [] then Burst(t.handled, t.handled, 0, 0, None)
      else AtHead(b, t.head).(last := t.handled, pausedSinceLast := 0);
    if turn.Yield? && h'.outputs != [] then noted.(dispatchFrom := Some(t.handled)) else noted
  }

  function ObserveRun(h: Held, b: Burst, ticks: seq<Tick>): Burst
    requires WellFormed(h)
    decreases |ticks|
  {
    if ticks == [] then b else ObserveRun(Step(h, ticks[0]).0, Observe(h, b, ticks[0]), ticks[1..])
  }

  /** When the burst's clocks last ran. */
  function RunningUntil(b: Burst, clock: Time): Time {
    if b.dispatchFrom.Some? then b.dispatchFrom.value else clock
  }

  /** The deadlines are what the observer would compute. */
  predicate OnTime(h: Held, b: Burst, clock: Time) {
    h.outputs != [] ==>
      && h.hard == Some(b.first + 8_000_000 + b.paused)
      && h.quiet == Some(b.last + 3_000_000 + b.pausedSinceLast)
      && h.pausedAt == b.dispatchFrom
      && b.first <= b.last
      && b.first + b.paused <= b.last + b.pausedSinceLast <= RunningUntil(b, clock) <= clock
  }

  lemma TurnStaysOnTime(h: Held, b: Burst, clock: Time, t: Tick)
    requires WellFormed(h) && OnTime(h, b, clock) && clock <= t.head && Legal(h, t)
    ensures OnTime(Step(h, t).0, Observe(h, b, t), t.handled)
  {
  }

  /** In every legal run the hard deadline is the first arrival plus 8 ms plus the time spent paused, and the quiet
      deadline is the latest arrival plus 3 ms plus the time spent paused since. */
  lemma {:induction false} DeadlinesAreExact(h: Held, b: Burst, clock: Time, ticks: seq<Tick>)
    requires WellFormed(h) && OnTime(h, b, clock) && LegalRun(h, clock, ticks)
    ensures OnTime(After(h, ticks), ObserveRun(h, b, ticks), ClockAfter(clock, ticks))
    decreases |ticks|
  {
    if ticks != [] {
      TurnStaysOnTime(h, b, clock, ticks[0]);
      DeadlinesAreExact(Step(h, ticks[0]).0, Observe(h, b, ticks[0]), ticks[0].handled, ticks[1..]);
    }
  }

  /** How long the burst has been held at `now`, pauses left out. */
  function ActiveAge(b: Burst, now: Time): int {
    now - b.first - b.paused
  }

  /** How long the burst has been quiet at `now`, pauses left out. */
  function ActiveQuiet(b: Burst, now: Time): int {
    now - b.last - b.pausedSinceLast
  }

  /** No burst survives a loop head at an active age of 8 ms or more; a timer that flushes has seen 3 ms of active
      quiet or an active age of 8 ms; and while the burst is younger, only an event that must follow it, lag, the
      timer or the end of the channel sends it on. */
  lemma FlushesInTime(before: seq<Tick>, t: Tick)
    requires LegalRun(INITIAL, 0, before + [t])
    requires After(INITIAL, before).outputs != []
    ensures var h, b := After(INITIAL, before), AtHead(ObserveRun(INITIAL, NO_BURST, before), t.head);
            var (h', turn) := Step(h, t);
            && (ActiveAge(b, t.head) >= 8_000_000 ==> turn == Yield(h.outputs) && h'.outputs == [])
            && (t.outcome.Elapsed? ==>
                  && turn == Yield(h.outputs)
                  && (ActiveQuiet(b, t.handled) >= 3_000_000 || ActiveAge(b, t.handled) >= 8_000_000))
            && (ActiveAge(b, t.head) < 8_000_000 && h'.outputs == [] ==>
                  || t.outcome.Elapsed? || t.outcome.Lagged? || t.outcome.Closed?
                  || (t.outcome.Received? && MustFollow(h.outputs, t.outcome.event)))
  {
    LegalRunConcat(INITIAL, 0, before, [t]);
    DeadlinesAreExact(INITIAL, NO_BURST, 0, before);
  }

  /** A pause takes nothing from what is left of either deadline; and a clock that went back moves neither. */
  lemma ResumingKeepsTheBudget(h: Held, now: Time)
    requires WellFormed(h) && h.pausedAt.Some?
    ensures var r := Resume(h, now);
            && r.hard.Some? && r.quiet.Some? && r.pausedAt.None? && r.outputs == h.outputs && r.closed == h.closed
            && (h.pausedAt.value <= now ==>
                  && r.hard.value - now == h.hard.value - h.pausedAt.value
                  && r.quiet.value - now == h.quiet.value - h.pausedAt.value)
            && (now <= h.pausedAt.value ==> r.hard == h.hard && r.quiet == h.quiet)
  {
  }
}
