/** The engine-event coalescer: a timed state machine between the broadcast channel and the app. It
    holds PTY output back for a burst and lets unrelated events overtake it. */
module Coalescer {
  import opened NinoxTypes
  import opened Sequences

  /** Clock readings, in nanoseconds. */
  type Time = nat

  const QUIET_INTERVAL: nat := 3_000_000
  const MAX_COALESCE_INTERVAL: nat := 8_000_000

  /** What polling the channel gave. `Elapsed` is the timer that raced `recv` and won; `Overdue` stands
      for a loop turn that found the hard deadline passed and did not poll the channel at all. */
  datatype Outcome = Received(event: Event) | Lagged | Closed | Elapsed | Overdue

  /** One turn of the coalescer's loop: the clock at its head, what the channel gave, and the clock
      when that was handled. */
  datatype Tick = Tick(head: Time, outcome: Outcome, handled: Time)

  /** The coalescer's fields. */
  datatype Held = Held(
    outputs: seq<Event>, hard: Option<Time>, quiet: Option<Time>, pausedAt: Option<Time>, closed: bool)

  /** How a loop turn ends: it goes round again, returns a batch, or returns the end of the stream. */
  datatype Turn = Again | Yield(batch: seq<Event>) | End

  const INITIAL := Held([], None, None, None, false)

  predicate SameClient(a: Event, b: Event)
    requires a.ClientOutput? && b.ClientOutput?
  {
    a.sid == b.sid && a.generation == b.generation
  }

  predicate AllOutput(es: seq<Event>) {
    forall i :: 0 <= i < |es| ==> es[i].ClientOutput?
  }

  /** Neighbouring outputs belong to different clients. */
  predicate Alternating(es: seq<Event>) {
    AllOutput(es) && forall i :: 0 < i < |es| ==> !SameClient(es[i - 1], es[i])
  }

  /** Outputs are held exactly while both deadlines run; a pause mark needs held output; neighbours
      alternate; a closed channel leaves nothing behind. */
  predicate WellFormed(h: Held) {
    && (h.outputs != [] <==> h.hard.Some?)
    && (h.outputs != [] <==> h.quiet.Some?)
    && (h.pausedAt.Some? ==> h.outputs != [])
    && Alternating(h.outputs)
    && (h.closed ==> h.outputs == [])
  }

  function MergeOutput(outputs: seq<Event>, e: Event): (merged: seq<Event>)
    requires AllOutput(outputs) && e.ClientOutput?
    ensures merged != [] && AllOutput(merged) && SameClient(merged[|merged| - 1], e)
    ensures Alternating(outputs) ==> Alternating(merged)
  {
    var n := |outputs|;
    if n > 0 && SameClient(outputs[n - 1], e)
    then outputs[..n - 1] + [ClientOutput(e.sid, e.generation, outputs[n - 1].bytes + e.bytes)]
    else outputs + [e]
  }

  function Push(h: Held, e: Event, now: Time): Held
    requires AllOutput(h.outputs) && e.ClientOutput?
  {
    h.(
      hard := if h.outputs == [] then Some(now + MAX_COALESCE_INTERVAL) else h.hard,
      quiet := Some(now + QUIET_INTERVAL),
      outputs := MergeOutput(h.outputs, e))
  }

  function Take(h: Held): Held {
    Held([], None, None, None, h.closed)
  }

  function Since(now: Time, earlier: Time): nat {
    if now >= earlier then now - earlier else 0
  }

  function Shift(deadline: Option<Time>, delay: nat): Option<Time> {
    if deadline.Some? then Some(deadline.value + delay) else None
  }

  function Resume(h: Held, now: Time): Held {
    if h.pausedAt.None? then h
    else
      var pausedFor := Since(now, h.pausedAt.value);
      h.(pausedAt := None, hard := Shift(h.hard, pausedFor), quiet := Shift(h.quiet, pausedFor))
  }

  predicate MustFollow(outputs: seq<Event>, e: Event) {
    match e
    case ClientClosed(sid, g) =>
      exists i :: 0 <= i < |outputs| && outputs[i].ClientOutput? && outputs[i].sid == sid && outputs[i].generation == g
    case SessionDone(sid) =>
      exists i :: 0 <= i < |outputs| && outputs[i].ClientOutput? && outputs[i].sid == sid
    case OrchestratorRemoved(_) => true
    case _ => false
  }

  function IdleTurn(h: Held, t: Tick): (Held, Turn)
    requires h.outputs == []
  {
    if h.closed then (h, End)
    else
      match t.outcome
      case Received(e) =>
        if e.ClientOutput? then (Push(h, e, t.handled), Again)
        else if e.TerminalOutput? then (h, Again)
        else (h, Yield([e]))
      case Closed => (h.(closed := true), End)
      case _ => (h, Again)
  }

  function BusyTurn(h: Held, t: Tick): (Held, Turn)
    requires WellFormed(h) && h.outputs != []
  {
    var r := Resume(h, t.head);
    if t.head >= r.hard.value then (Take(r), Yield(r.outputs))
    else
      match t.outcome
      case Received(e) =>
        if e.ClientOutput? then (Push(r, e, t.handled), Again)
        else if e.TerminalOutput? then (r, Again)
        else if MustFollow(r.outputs, e) then (Take(r), Yield(r.outputs + [e]))
        else (r.(pausedAt := Some(t.handled)), Yield([e]))
      case Closed => (Take(r).(closed := true), Yield(r.outputs))
      case Overdue => (r, Again)
      case _ => (Take(r), Yield(r.outputs))
  }

  function Step(h: Held, t: Tick): (r: (Held, Turn))
    requires WellFormed(h)
    ensures WellFormed(r.0)
  {
    if h.outputs == [] then IdleTurn(h, t) else BusyTurn(h, t)
  }

  /** What the channel and the timer can do in state `h`: nothing after the end of the stream, no
      timer while nothing is held, no poll past the hard deadline, and no timeout before the earlier
      deadline. */
  predicate Legal(h: Held, t: Tick)
    requires WellFormed(h)
  {
    && t.head <= t.handled
    && !h.closed
    && if h.outputs == [] then t.outcome.Received? || t.outcome.Lagged? || t.outcome.Closed?
       else
         var r := Resume(h, t.head);
         if t.head >= r.hard.value then t.outcome.Overdue?
         else !t.outcome.Overdue? && (t.outcome.Elapsed? ==> t.handled >= r.quiet.value || t.handled >= r.hard.value)
  }

  function YieldOf(turn: Turn): seq<Event> {
    if turn.Yield? then turn.batch else []
  }

  function After(h: Held, ticks: seq<Tick>): (r: Held)
    requires WellFormed(h)
    ensures WellFormed(r)
    decreases |ticks|
  {
    if ticks == [] then h else After(Step(h, ticks[0]).0, ticks[1..])
  }

  /** The returned batches, one after the other. */
  function Emitted(h: Held, ticks: seq<Tick>): seq<Event>
    requires WellFormed(h)
    decreases |ticks|
  {
    if ticks == [] then [] else YieldOf(Step(h, ticks[0]).1) + Emitted(Step(h, ticks[0]).0, ticks[1..])
  }

  /** The clock after `ticks`, which starts at `clock`. */
  function ClockAfter(clock: Time, ticks: seq<Tick>): Time {
    if ticks == [] then clock else ticks[|ticks| - 1].handled
  }

  predicate LegalRun(h: Held, clock: Time, ticks: seq<Tick>)
    requires WellFormed(h)
    decreases |ticks|
  {
    ticks == [] ||
    (clock <= ticks[0].head && Legal(h, ticks[0]) && LegalRun(Step(h, ticks[0]).0, ticks[0].handled, ticks[1..]))
  }

  /** The events the channel delivered, in order. */
  function ReceivedEvents(ticks: seq<Tick>): seq<Event> {
    if ticks == [] then []
    else (if ticks[0].outcome.Received? then [ticks[0].outcome.event] else []) + ReceivedEvents(ticks[1..])
  }

  lemma {:induction false} AfterConcat(h: Held, xs: seq<Tick>, ys: seq<Tick>)
    requires WellFormed(h)
    ensures After(h, xs + ys) == After(After(h, xs), ys)
    decreases |xs|
  {
    if xs == [] {
      assert xs + ys == ys;
    } else {
      assert (xs + ys)[1..] == xs[1..] + ys;
      AfterConcat(Step(h, xs[0]).0, xs[1..], ys);
    }
  }

  lemma {:induction false} EmittedConcat(h: Held, xs: seq<Tick>, ys: seq<Tick>)
    requires WellFormed(h)
    ensures Emitted(h, xs + ys) == Emitted(h, xs) + Emitted(After(h, xs), ys)
    decreases |xs|
  {
    if xs == [] {
      assert xs + ys == ys;
    } else {
      assert (xs + ys)[1..] == xs[1..] + ys;
      var h1 := Step(h, xs[0]).0;
      EmittedConcat(h1, xs[1..], ys);
      Associates(YieldOf(Step(h, xs[0]).1), Emitted(h1, xs[1..]), Emitted(After(h1, xs[1..]), ys));
    }
  }

  lemma {:induction false} LegalRunConcat(h: Held, clock: Time, xs: seq<Tick>, ys: seq<Tick>)
    requires WellFormed(h)
    ensures LegalRun(h, clock, xs + ys) <==> LegalRun(h, clock, xs) && LegalRun(After(h, xs), ClockAfter(clock, xs), ys)
    decreases |xs|
  {
    if xs == [] {
      assert xs + ys == ys;
    } else {
      assert (xs + ys)[1..] == xs[1..] + ys;
      LegalRunConcat(Step(h, xs[0]).0, xs[0].handled, xs[1..], ys);
    }
  }

  lemma {:induction false} ReceivedConcat(xs: seq<Tick>, ys: seq<Tick>)
    ensures ReceivedEvents(xs + ys) == ReceivedEvents(xs) + ReceivedEvents(ys)
  {
    if xs == [] {
      assert xs + ys == ys;
    } else {
      assert (xs + ys)[0] == xs[0] && (xs + ys)[1..] == xs[1..] + ys;
      ReceivedConcat(xs[1..], ys);
      var first := if xs[0].outcome.Received? then [xs[0].outcome.event] else [];
      Associates(first, ReceivedEvents(xs[1..]), ReceivedEvents(ys));
    }
  }

  lemma OneTick(h: Held, t: Tick)
    requires WellFormed(h)
    ensures After(h, [t]) == Step(h, t).0 && Emitted(h, [t]) == YieldOf(Step(h, t).1)
  {
    assert [t][1..] == [];
  }

  /** What `next` has given when the script of ticks stops: still waiting, a batch, or the end. */
  datatype Poll = Pending | Ready(result: Option<seq<Event>>)

  /** One call of `next`: the state it leaves, what it returns, and the ticks it did not use. */
  function NextRun(h: Held, ticks: seq<Tick>): (r: (Held, Poll, seq<Tick>))
    requires WellFormed(h)
    ensures WellFormed(r.0) && |r.2| <= |ticks|
    decreases |ticks|
  {
    if h.closed then (h, Ready(None), ticks)
    else if ticks == [] then (h, Pending, [])
    else
      var turn := Step(h, ticks[0]);
      match turn.1
      case Yield(batch) => (turn.0, Ready(Some(batch)), ticks[1..])
      case End => (turn.0, Ready(None), ticks[1..])
      case Again => NextRun(turn.0, ticks[1..])
  }

  /** The ticks that a call uses up. */
  function Used(h: Held, ticks: seq<Tick>): (used: seq<Tick>)
    requires WellFormed(h)
  {
    ticks[..|ticks| - |NextRun(h, ticks).2|]
  }

  function Returned(poll: Poll): seq<Event> {
    if poll.Ready? && poll.result.Some? then poll.result.value else []
  }

  lemma OneMoreTick(h: Held, t: Tick, rest: seq<Tick>)
    requires WellFormed(h)
    ensures After(h, [t] + rest) == After(Step(h, t).0, rest)
    ensures Emitted(h, [t] + rest) == YieldOf(Step(h, t).1) + Emitted(Step(h, t).0, rest)
    ensures Step(h, t).1.Again? ==> Emitted(h, [t] + rest) == Emitted(Step(h, t).0, rest)
  {
    assert ([t] + rest)[1..] == rest;
  }

  lemma WaitingUsesATick(h: Held, ticks: seq<Tick>)
    requires WellFormed(h) && !h.closed && ticks != [] && Step(h, ticks[0]).1.Again?
    ensures NextRun(h, ticks) == NextRun(Step(h, ticks[0]).0, ticks[1..])
    ensures Used(h, ticks) == [ticks[0]] + Used(Step(h, ticks[0]).0, ticks[1..])
  {
    var n := |ticks| - |NextRun(h, ticks).2|;
    assert ticks == [ticks[0]] + ticks[1..];
    assert ticks[..n] == [ticks[0]] + ticks[1..][..n - 1];
  }

  lemma {:induction false} NextLeavesTheRest(h: Held, ticks: seq<Tick>)
    requires WellFormed(h)
    ensures ticks == Used(h, ticks) + NextRun(h, ticks).2
    decreases |ticks|
  {
    if !h.closed && ticks != [] && Step(h, ticks[0]).1.Again? {
      NextLeavesTheRest(Step(h, ticks[0]).0, ticks[1..]);
      WaitingUsesATick(h, ticks);
      assert ticks == [ticks[0]] + ticks[1..];
    }
  }

  /** A call uses up a prefix of the ticks and returns exactly what those emit. */
  lemma {:induction false} NextReturnsEmitted(h: Held, ticks: seq<Tick>)
    requires WellFormed(h)
    ensures ticks == Used(h, ticks) + NextRun(h, ticks).2
    ensures NextRun(h, ticks).0 == After(h, Used(h, ticks))
    ensures Returned(NextRun(h, ticks).1) == Emitted(h, Used(h, ticks))
    decreases |ticks|
  {
    NextLeavesTheRest(h, ticks);
    if h.closed || ticks == [] {
      assert Used(h, ticks) == [];
    } else if Step(h, ticks[0]).1.Again? {
      var h1 := Step(h, ticks[0]).0;
      NextReturnsEmitted(h1, ticks[1..]);
      WaitingUsesATick(h, ticks);
      OneMoreTick(h, ticks[0], Used(h1, ticks[1..]));
    } else {
      assert Used(h, ticks) == [ticks[0]];
      OneTick(h, ticks[0]);
    }
  }

  /** On a legal script a call waits only when the script stops, never returns an empty batch, and reports the
      end exactly when the channel has closed and nothing is held; after that it changes nothing. */
  lemma {:induction false} NextEndsWithTheChannel(h: Held, clock: Time, ticks: seq<Tick>)
    requires WellFormed(h) && LegalRun(h, clock, ticks)
    ensures var (h', poll, rest) := NextRun(h, ticks);
            && (poll.Pending? ==> rest == [] && !h'.closed)
            && (poll == Ready(None) ==> h'.closed && h'.outputs == [])
            && (poll.Ready? && poll.result.Some? ==> poll.result.value != [])
            && (h.closed ==> h' == h && poll == Ready(None) && rest == ticks)
    decreases |ticks|
  {
    if !h.closed && ticks != [] {
      TurnEnds(h, ticks[0]);
      if Step(h, ticks[0]).1.Again? {
        NextEndsWithTheChannel(Step(h, ticks[0]).0, ticks[0].handled, ticks[1..]);
      }
    }
  }

  /** A turn returns no empty batch, and ends the stream exactly when it closes it while idle. */
  lemma TurnEnds(h: Held, t: Tick)
    requires WellFormed(h) && Legal(h, t)
    ensures Step(h, t).1.Yield? ==> YieldOf(Step(h, t).1) != []
    ensures Step(h, t).1.End? ==> Step(h, t).0.closed
    ensures Step(h, t).1.Again? ==> !Step(h, t).0.closed
  {
  }

  class ClientOutputCoalescer {
    var outputs: seq<Event>
    var hardDeadline: Option<Time>
    var quietDeadline: Option<Time>
    var dispatchPausedAt: Option<Time>
    var receiverClosed: bool

    function State(): Held
      reads this
    {
      Held(outputs, hardDeadline, quietDeadline, dispatchPausedAt, receiverClosed)
    }

    constructor ()
      ensures State() == INITIAL
    {
      outputs, hardDeadline, quietDeadline, dispatchPausedAt, receiverClosed := [], None, None, None, false;
    }

    method PushOutput(e: Event, now: Time)
      requires AllOutput(outputs) && e.ClientOutput?
      modifies this
      ensures State() == Push(old(State()), e, now)
    {
      if outputs == [] {
        hardDeadline := Some(now + MAX_COALESCE_INTERVAL);
      }
      quietDeadline := Some(now + QUIET_INTERVAL);
      var n := |outputs|;
      if n > 0 && SameClient(outputs[n - 1], e) {
        var last := outputs[n - 1];
        outputs := outputs[n - 1 := ClientOutput(last.sid, last.generation, last.bytes + e.bytes)];
        return;
      }
      outputs := outputs + [e];
    }

    method TakeOutputs() returns (taken: seq<Event>)
      modifies this
      ensures taken == old(outputs)
      ensures State() == Take(old(State()))
    {
      taken := outputs;
      hardDeadline, quietDeadline, dispatchPausedAt, outputs := None, None, None, [];
    }

    method PauseForDispatch(now: Time)
      modifies this`dispatchPausedAt
      ensures dispatchPausedAt == Some(now)
    {
      dispatchPausedAt := Some(now);
    }

    method ResumeAfterDispatch(now: Time)
      modifies this
      ensures State() == Resume(old(State()), now)
    {
      if dispatchPausedAt.None? {
        return;
      }
      var pausedFor := Since(now, dispatchPausedAt.value);
      dispatchPausedAt := None;
      hardDeadline := Shift(hardDeadline, pausedFor);
      quietDeadline := Shift(quietDeadline, pausedFor);
    }

    /** A turn with nothing held: waits for the channel without a deadline. */
    method WaitIdle(t: Tick) returns (turn: Turn)
      requires WellFormed(State()) && outputs == [] && !receiverClosed
      modifies this
      ensures (State(), turn) == Step(old(State()), t)
    {
      turn := Again;
      match t.outcome {
        case Received(e) =>
          if e.ClientOutput? {
            PushOutput(e, t.handled);
          } else if !e.TerminalOutput? {
            turn := Yield([e]);
          }
        case Closed =>
          receiverClosed := true;
          turn := End;
        case _ =>
      }
    }

    /** A turn with output held: waits no longer than the earlier deadline. */
    method WaitBusy(t: Tick) returns (turn: Turn)
      requires WellFormed(State()) && outputs != []
      modifies this
      ensures (State(), turn) == Step(old(State()), t)
    {
      turn := Again;
      ResumeAfterDispatch(t.head);
      if t.head >= hardDeadline.value {
        var taken := TakeOutputs();
        return Yield(taken);
      }
      match t.outcome {
        case Received(e) =>
          if e.ClientOutput? {
            PushOutput(e, t.handled);
          } else if e.TerminalOutput? {
          } else if MustFollow(outputs, e) {
            var taken := TakeOutputs();
            turn := Yield(taken + [e]);
          } else {
            PauseForDispatch(t.handled);
            turn := Yield([e]);
          }
        case Closed =>
          receiverClosed := true;
          var taken := TakeOutputs();
          turn := Yield(taken);
        case Overdue =>
        case _ =>
          var taken := TakeOutputs();
          turn := Yield(taken);
      }
    }

    method RunTurn(t: Tick) returns (turn: Turn)
      requires WellFormed(State()) && !receiverClosed
      modifies this
      ensures WellFormed(State()) && (State(), turn) == Step(old(State()), t)
    {
      if outputs == [] {
        turn := WaitIdle(t);
      } else {
        turn := WaitBusy(t);
      }
    }

    /** Runs the loop until it returns or the script `ticks` stops, and hands back the ticks it did not use. */
    method Next(ticks: seq<Tick>) returns (poll: Poll, rest: seq<Tick>)
      requires WellFormed(State())
      modifies this
      ensures WellFormed(State()) && (State(), poll, rest) == NextRun(old(State()), ticks)
    {
      var used := 0;
      while used < |ticks| && !receiverClosed
        invariant used <= |ticks|
        invariant WellFormed(State())
        invariant NextRun(State(), ticks[used..]) == NextRun(old(State()), ticks)
      {
        assert ticks[used..][1..] == ticks[used + 1..];
        var turn := RunTurn(ticks[used]);
        used := used + 1;
        if turn.Yield? {
          return Ready(Some(turn.batch)), ticks[used..];
        }
        if turn.End? {
          return Ready(None), ticks[used..];
        }
      }
      return if receiverClosed then Ready(None) else Pending, ticks[used..];
    }
  }
}
