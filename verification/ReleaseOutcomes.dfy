/** How releases end: every one that is not cut short settles its claim, a crash is repaired by running the release
    again, and the interleaved steps of one release alone are the release itself. */
module ReleaseOutcomes {
  import opened NinoxTypes
  import opened ReleaseStore
  import opened ReleaseProtocol
  import opened ReleaseLock

  // ---------------------------------------------------------------- uncrashed releases settle

  /** The most steps a release still takes. */
  function Remaining(phase: Phase): nat {
    match phase
    case Waiting(_) => 7
    case Begun => 6
    case Claimed(_) => 5
    case Stopped(_) => 4
    case Found(_, _) => 3
    case NotHeld(_) => 2
    case Missing(_, _) => 2
    case Recycling(_, _) => 2
    case Settling(_, _) => 1
  }

  /** How often the run advances this release. */
  function Turns(steps: seq<Step>, pid: nat): nat {
    if steps == [] then 0
    else (if steps[0].Advance? && steps[0].pid == pid then 1 else 0) + Turns(steps[1..], pid)
  }

  lemma AdvanceProgresses(w: World, pid: nat, ok: bool)
    requires Inv(w) && pid in w.processes && w.processes[pid].phase.HasClaim()
    ensures var v := Advanced(w, pid, ok);
            var q := w.processes[pid];
            if pid in v.processes
            then v.processes[pid].session == q.session && v.processes[pid].phase.HasClaim()
                 && v.processes[pid].phase.claim == q.phase.claim
                 && Remaining(v.processes[pid].phase) < Remaining(q.phase)
            else !v.rows.Is(q.session, q.phase.claim.incarnation, ReleaseClaimed)
  {
  }

  /** A pooled worker under a claim that is made and kept under the lock. */
  predicate KeptUnderLock(w: World, q: Process) {
    Guarded(w) && Provided(w.rows) && IsCurrent(w.rows, q) && q.phase.claim.lease.Some?
  }

  predicate IsSettled(rows: Rows, s: SessionId, i: Id) {
    rows.Is(s, i, Released) || rows.Is(s, i, Retained)
  }

  lemma EndingSettles(w: World, pid: nat, ok: bool)
    requires Inv(w) && pid in w.processes && w.processes[pid].phase.HasClaim() && pid !in Advanced(w, pid, ok).processes
    requires KeptUnderLock(w, w.processes[pid])
    ensures IsSettled(Advanced(w, pid, ok).rows, w.processes[pid].session, w.processes[pid].phase.claim.incarnation)
  {
    var q := w.processes[pid];
    assert Sound(w, q) && Guards(w.rows, q);
    AdvancedRows(w, pid, ok);
  }

  /** No step makes another incarnation current while a release holds the claim. */
  lemma ClaimedStaysCurrent(w: World, step: Step, q: Process)
    requires Inv(w) && Sound(w, q) && Guards(w.rows, q) && Provided(w.rows)
    requires IsCurrent(w.rows, q) && q.phase.claim.lease.Some?
    ensures IsCurrent(Do(w, step).rows, q)
  {
    if w.rows.SomeSlotHeldBy(q.session, q.phase.claim.incarnation, q.phase.claim.lease) {
      assert w.rows.HasActive(q.session);
    }
    assert !CanRefile(w.rows, q.session);
    if Enabled(w, step) && step.Advance? {
      AdvanceKeepsIncarnations(w, step.pid, step.ok, q.session);
    }
  }

  lemma StepKeepsKept(w: World, step: Step, pid: nat)
    requires Inv(w) && pid in w.processes && KeptUnderLock(w, w.processes[pid]) && ClaimsUnderLock(w, step)
    requires pid in Do(w, step).processes
    requires Do(w, step).processes[pid].session == w.processes[pid].session
    requires Do(w, step).processes[pid].phase.HasClaim()
    requires Do(w, step).processes[pid].phase.claim == w.processes[pid].phase.claim
    ensures KeptUnderLock(Do(w, step), Do(w, step).processes[pid])
  {
    assert Sound(w, w.processes[pid]) && Guards(w.rows, w.processes[pid]);
    ClaimedStaysCurrent(w, step, w.processes[pid]);
    StepKeepsGuarded(w, step);
    StepKeepsProvided(w, step);
  }

  lemma OtherStepsKeepProcess(w: World, step: Step, pid: nat)
    requires Inv(w) && pid in w.processes
    requires !(step.Advance? && step.pid == pid) && step != Crash(pid)
    ensures pid in Do(w, step).processes && Do(w, step).processes[pid] == w.processes[pid]
  {
    if Enabled(w, step) && step.Advance? {
      OthersStay(w, step.pid, step.ok);
      assert pid in Do(w, step).processes - {step.pid};
    }
  }

  // ---------------------------------------------------------------- runs that end a release

  /** The run ends exactly when release `pid` does, which does not crash. */
  predicate Ends(w: World, run: seq<Step>, pid: nat)
    requires Inv(w)
    decreases |run|
  {
    run != [] && run[0] != Crash(pid) && pid in w.processes
    && (StepKeepsInv(w, run[0]);
        if pid in Do(w, run[0]).processes then Ends(Do(w, run[0]), run[1..], pid) else |run| == 1)
  }

  /** A step that leaves the release in flight leaves it its claim. */
  lemma ClaimIsKept(w: World, step: Step, pid: nat)
    requires Inv(w) && pid in w.processes && w.processes[pid].phase.HasClaim() && step != Crash(pid)
    ensures pid in Do(w, step).processes ==>
              Do(w, step).processes[pid].session == w.processes[pid].session
              && Do(w, step).processes[pid].phase.HasClaim()
              && Do(w, step).processes[pid].phase.claim == w.processes[pid].phase.claim
    ensures pid !in Do(w, step).processes ==> step.Advance? && step.pid == pid
  {
    if step.Advance? && step.pid == pid {
      AdvanceProgresses(w, pid, step.ok);
    } else {
      OtherStepsKeepProcess(w, step, pid);
    }
  }

  lemma {:induction false} EndedClaimIsGone(w: World, run: seq<Step>, pid: nat)
    requires Inv(w) && Ends(w, run, pid) && w.processes[pid].phase.HasClaim()
    ensures !After(w, run).rows.Is(w.processes[pid].session, w.processes[pid].phase.claim.incarnation, ReleaseClaimed)
    ensures pid !in After(w, run).processes
    decreases |run|
  {
    ClaimIsKept(w, run[0], pid);
    StepKeepsInv(w, run[0]);
    if pid in Do(w, run[0]).processes {
      EndedClaimIsGone(Do(w, run[0]), run[1..], pid);
    } else {
      AdvanceProgresses(w, pid, run[0].ok);
    }
  }

  /** A pooled worker claimed under the lock is released, or retained again. */
  lemma {:induction false} KeptSettles(w: World, run: seq<Step>, pid: nat)
    requires Inv(w) && Ends(w, run, pid) && KeptUnderLock(w, w.processes[pid]) && GuardedRun(w, run)
    ensures IsSettled(After(w, run).rows, w.processes[pid].session, w.processes[pid].phase.claim.incarnation)
    decreases |run|
  {
    ClaimIsKept(w, run[0], pid);
    StepKeepsInv(w, run[0]);
    if pid in Do(w, run[0]).processes {
      StepKeepsKept(w, run[0], pid);
      KeptSettles(Do(w, run[0]), run[1..], pid);
    } else {
      EndingSettles(w, pid, run[0].ok);
    }
  }

  // ---------------------------------------------------------------- no other release of the session in flight

  /** The release has its worker claimed, and no other release of the session is in flight. */
  predicate ClaimsAlone(w: World, pid: nat) {
    pid in w.processes
    && var q := w.processes[pid];
       q.phase.HasClaim() && w.rows.Is(q.session, q.phase.claim.incarnation, ReleaseClaimed)
       && forall other :: other in w.processes && w.processes[other].session == q.session ==> other == pid
  }

  predicate BeginsNone(run: seq<Step>, s: SessionId) {
    forall k :: 0 <= k < |run| ==> !(run[k].Begin? && run[k].session == s)
  }

  lemma OthersLeaveAClaim(w: World, step: Step, s: SessionId, i: Id)
    requires Inv(w) && w.rows.Is(s, i, ReleaseClaimed) && !step.Advance?
    ensures Do(w, step).rows.Is(s, i, ReleaseClaimed)
  {
  }

  /** The sessions of the releases in flight stay as they are. */
  lemma SessionsStay(w: World, pid: nat, ok: bool)
    requires Inv(w) && pid in w.processes
    ensures forall other :: other in Advanced(w, pid, ok).processes ==>
              other in w.processes && Advanced(w, pid, ok).processes[other].session == w.processes[other].session
  {
    var v := Advanced(w, pid, ok);
    OthersStay(w, pid, ok);
    forall other | other in v.processes
      ensures other in w.processes && v.processes[other].session == w.processes[other].session
    {
      if other == pid {
        LocksAreTakenFree(w, pid, ok);
      } else {
        assert other in v.processes - {pid};
      }
    }
  }

  lemma OwnTurnLeavesAClaim(w: World, pid: nat, ok: bool)
    requires Inv(w) && pid in w.processes && w.processes[pid].phase.HasClaim()
    requires pid in Advanced(w, pid, ok).processes
    ensures Advanced(w, pid, ok).rows.workers == w.rows.workers
  {
    AdvancedRows(w, pid, ok);
  }

  lemma AdvanceKeepsAlone(w: World, turn: nat, ok: bool, pid: nat)
    requires Inv(w) && ClaimsAlone(w, pid) && turn in w.processes && pid in Advanced(w, turn, ok).processes
    ensures ClaimsAlone(Advanced(w, turn, ok), pid)
  {
    var q := w.processes[pid];
    ClaimIsKept(w, Advance(turn, ok), pid);
    assert Do(w, Advance(turn, ok)) == Advanced(w, turn, ok);
    SessionsStay(w, turn, ok);
    if turn == pid {
      OwnTurnLeavesAClaim(w, pid, ok);
    } else {
      AdvanceTouchesOneWorker(w, turn, ok, q.session);
    }
  }

  lemma StepKeepsAlone(w: World, step: Step, pid: nat)
    requires Inv(w) && ClaimsAlone(w, pid) && step != Crash(pid) && pid in Do(w, step).processes
    requires !(step.Begin? && step.session == w.processes[pid].session)
    ensures ClaimsAlone(Do(w, step), pid)
  {
    if step.Advance? {
      if step.pid in w.processes {
        AdvanceKeepsAlone(w, step.pid, step.ok, pid);
      }
    } else {
      ClaimIsKept(w, step, pid);
      OthersLeaveAClaim(w, step, w.processes[pid].session, w.processes[pid].phase.claim.incarnation);
    }
  }

  lemma LastTurnSettles(w: World, pid: nat, ok: bool)
    requires Inv(w) && ClaimsAlone(w, pid) && pid !in Advanced(w, pid, ok).processes
    ensures IsSettled(Advanced(w, pid, ok).rows, w.processes[pid].session, w.processes[pid].phase.claim.incarnation)
  {
    AdvancedRows(w, pid, ok);
  }

  /** Then any worker is released, or retained again, lock or no lock. */
  lemma {:induction false} AloneSettles(w: World, run: seq<Step>, pid: nat)
    requires Inv(w) && Ends(w, run, pid) && ClaimsAlone(w, pid) && BeginsNone(run, w.processes[pid].session)
    ensures IsSettled(After(w, run).rows, w.processes[pid].session, w.processes[pid].phase.claim.incarnation)
    decreases |run|
  {
    ClaimIsKept(w, run[0], pid);
    StepKeepsInv(w, run[0]);
    if pid in Do(w, run[0]).processes {
      StepKeepsAlone(w, run[0], pid);
      AloneSettles(Do(w, run[0]), run[1..], pid);
    } else {
      LastTurnSettles(w, pid, run[0].ok);
    }
  }

  /** A release in flight is over after a run; its claim is gone; and its worker is released or retained if it is
      pooled and was claimed under the lock, or if no other release of its session was in flight. */
  ghost predicate SettledBy(w: World, run: seq<Step>, pid: nat)
    requires Inv(w) && pid in w.processes && w.processes[pid].phase.HasClaim()
  {
    var (v, s, i) := (After(w, run), w.processes[pid].session, w.processes[pid].phase.claim.incarnation);
    Ends(w, run, pid) && pid !in v.processes && !v.rows.Is(s, i, ReleaseClaimed)
    && (KeptUnderLock(w, w.processes[pid]) && GuardedRun(w, run) ==> IsSettled(v.rows, s, i))
    && (ClaimsAlone(w, pid) && BeginsNone(run, s) ==> IsSettled(v.rows, s, i))
  }

  /** Its turns bring a release to its end. */
  lemma {:induction false} TurnsEnd(w: World, steps: seq<Step>, pid: nat)
    requires Inv(w) && pid in w.processes && w.processes[pid].phase.HasClaim()
    requires Crash(pid) !in steps && Turns(steps, pid) >= Remaining(w.processes[pid].phase)
    ensures exists k :: 0 <= k <= |steps| && Ends(w, steps[..k], pid)
    decreases |steps|
  {
    var v := Do(w, steps[0]);
    StepKeepsInv(w, steps[0]);
    ClaimIsKept(w, steps[0], pid);
    if pid !in v.processes {
      assert Ends(w, steps[..1], pid);
      return;
    }
    if steps[0].Advance? && steps[0].pid == pid {
      AdvanceProgresses(w, pid, steps[0].ok);
    } else {
      OtherStepsKeepProcess(w, steps[0], pid);
    }
    TurnsEnd(v, steps[1..], pid);
    var k :| 0 <= k <= |steps[1..]| && Ends(v, steps[1..][..k], pid);
    assert steps[..k + 1][1..] == steps[1..][..k] && steps[..k + 1][0] == steps[0];
    assert Ends(w, steps[..k + 1], pid);
  }

  /** Every claimed release that is given its turns and does not crash ends, and settles its claim, whatever
      interleaves with it. */
  lemma EveryUncrashedReleaseSettles(w: World, steps: seq<Step>, pid: nat)
    requires Inv(w) && pid in w.processes && w.processes[pid].phase.HasClaim()
    requires Crash(pid) !in steps && Turns(steps, pid) >= Remaining(w.processes[pid].phase)
    ensures exists k :: 0 <= k <= |steps| && SettledBy(w, steps[..k], pid)
  {
    TurnsEnd(w, steps, pid);
    var k :| 0 <= k <= |steps| && Ends(w, steps[..k], pid);
    var run := steps[..k];
    EndedClaimIsGone(w, run, pid);
    if KeptUnderLock(w, w.processes[pid]) && GuardedRun(w, run) {
      KeptSettles(w, run, pid);
    }
    if ClaimsAlone(w, pid) && BeginsNone(run, w.processes[pid].session) {
      AloneSettles(w, run, pid);
    }
    assert SettledBy(w, run, pid);
  }

  // ---------------------------------------------------------------- a crash is repaired by running the release again

  /** Running the release of a claimed worker that holds no checkout completes it exactly when its recorded checkout is
      free, or forgotten and gone from disk; otherwise the worker is retained again. */
  lemma RerunCompletesExactly(rows: Rows, disk: set<Path>, s: SessionId, gitOk: bool)
    requires rows.OneActivePerSession() && InState(rows, s, ReleaseClaimed) && !rows.HasActive(s) && s !in rows.starting
    ensures var p := rows.workers[s].path;
            var returned := if p in rows.pool then rows.pool[p].state.Free? else p !in disk;
            RunRelease(rows, disk, s, true, gitOk)
              == (SetState(rows, s, if returned then Released else Retained), returned)
  {
  }

  /** The row of a claimed incarnation, as long as that incarnation is current. */
  predicate RowOf(w: World, s: SessionId, c: Worker) {
    c.incarnation in w.issued
    && (s in w.rows.workers && w.rows.workers[s].incarnation == c.incarnation
        ==> !w.rows.workers[s].state.Allocating? && w.rows.workers[s].(state := ReleaseClaimed) == c)
  }

  lemma {:induction false} RunKeepsRow(w: World, steps: seq<Step>, s: SessionId, c: Worker)
    requires Inv(w) && RowOf(w, s, c)
    ensures RowOf(After(w, steps), s, c)
    decreases |steps|
  {
    if steps != [] {
      StepKeepsRow(w, steps[0], s, c);
      StepKeepsInv(w, steps[0]);
      RunKeepsRow(Do(w, steps[0]), steps[1..], s, c);
    }
  }

  lemma StepKeepsRow(w: World, step: Step, s: SessionId, c: Worker)
    requires Inv(w) && RowOf(w, s, c)
    ensures RowOf(Do(w, step), s, c)
  {
    if Enabled(w, step) && step.Advance? {
      AdvanceKeepsRow(w, step.pid, step.ok, s, c);
    }
  }

  lemma AdvanceKeepsRow(w: World, pid: nat, ok: bool, s: SessionId, c: Worker)
    requires Inv(w) && pid in w.processes && RowOf(w, s, c)
    ensures RowOf(Advanced(w, pid, ok), s, c)
  {
    if w.processes[pid].session != s {
      AdvanceTouchesOneWorker(w, pid, ok, s);
    }
  }

  /** A release that crashes after freeing its checkout and before completing its claim is finished by running it again
      at any later time at which the worker is still claimed and the checkout still free. */
  lemma RerunAfterCrashCompletes(w: World, pid: nat, later: seq<Step>, gitOk: bool)
    requires Inv(w) && pid in w.processes && w.processes[pid].phase.Recycling?
    requires var q := w.processes[pid];
             CanFree(w.rows, q.phase.path, q.session, q.phase.claim.incarnation, q.phase.claim.lease)
    requires var (q, u) := (w.processes[pid], After(w, [Advance(pid, true), Crash(pid)] + later));
             q.phase.path in u.rows.pool && u.rows.pool[q.phase.path].state.Free?
             && u.rows.Is(q.session, q.phase.claim.incarnation, ReleaseClaimed)
    ensures var (s, u) := (w.processes[pid].session, After(w, [Advance(pid, true), Crash(pid)] + later));
            RunRelease(u.rows, u.disk, s, true, gitOk) == (SetState(u.rows, s, Released), true)
  {
    var (q, u) := (w.processes[pid], After(w, [Advance(pid, true), Crash(pid)] + later));
    var (s, p) := (q.session, q.phase.path);
    assert Backed(w.rows, p) && Sound(w, q);
    RunKeepsRow(w, [Advance(pid, true), Crash(pid)] + later, s, q.phase.claim);
    assert u.rows.workers[s].path == p;
    forall r | r in u.rows.pool ensures !(u.rows.pool[r].IsActive() && u.rows.pool[r].session == s) {
      assert Backed(u.rows, r);
    }
    RerunCompletesExactly(u.rows, u.disk, s, gitOk);
  }

  // ---------------------------------------------------------------- a lease once gone

  /** A settled worker that is bound to a lease it no longer holds. */
  predicate Stranded(rows: Rows, s: SessionId) {
    (InState(rows, s, Retained) || InState(rows, s, Released)) && rows.workers[s].lease.Some? && !rows.HasActive(s)
    && s !in rows.starting
  }

  lemma StepKeepsStranded(w: World, step: Step, s: SessionId)
    requires Inv(w) && Stranded(w.rows, s)
    ensures Stranded(Do(w, step).rows, s) && Do(w, step).rows.workers[s] == w.rows.workers[s]
  {
    if Enabled(w, step) && step.Advance? {
      AdvanceKeepsStranded(w, step.pid, step.ok, s);
    }
  }

  lemma AdvanceKeepsStranded(w: World, pid: nat, ok: bool, s: SessionId)
    requires Inv(w) && pid in w.processes && Stranded(w.rows, s)
    ensures Stranded(Advanced(w, pid, ok).rows, s) && Advanced(w, pid, ok).rows.workers[s] == w.rows.workers[s]
  {
    if w.processes[pid].session != s {
      AdvanceTouchesOneWorker(w, pid, ok, s);
    }
    AdvanceOnlyTakes(w, pid, ok);
    AdvancedRows(w, pid, ok);
  }

  /** Its row never changes again: it can be neither released, nor resumed, nor re-filed. This is where a release ends
      up whose checkout was freed, then leased to another session before the crashed release was run again. */
  lemma {:induction false} StrandedForGood(w: World, steps: seq<Step>, s: SessionId)
    requires Inv(w) && Stranded(w.rows, s)
    ensures Stranded(After(w, steps).rows, s) && After(w, steps).rows.workers[s] == w.rows.workers[s]
    decreases |steps|
  {
    if steps != [] {
      StepKeepsStranded(w, steps[0], s);
      StepKeepsInv(w, steps[0]);
      StrandedForGood(Do(w, steps[0]), steps[1..], s);
    }
  }

  lemma RerunAfterReleaseStrands(rows: Rows, disk: set<Path>, s: SessionId, gitOk: bool)
    requires rows.OneActivePerSession() && InState(rows, s, ReleaseClaimed) && !rows.HasActive(s)
    requires s !in rows.starting && rows.workers[s].lease.Some? && rows.workers[s].path in rows.pool
             && !rows.pool[rows.workers[s].path].state.Free?
    ensures var (after, ok) := RunRelease(rows, disk, s, true, gitOk);
            !ok && InState(after, s, Retained) && Stranded(after, s)
  {
    RerunCompletesExactly(rows, disk, s, gitOk);
  }

  // ---------------------------------------------------------------- one release alone

  function Alone(pid: nat, stopOk: bool, gitOk: bool): seq<Step> {
    [Advance(pid, true), Advance(pid, stopOk), Advance(pid, true), Advance(pid, true), Advance(pid, gitOk),
     Advance(pid, true)]
  }

  /** With nothing in between, the steps of a release are the release. */
  lemma AloneItIsTheRelease(w: World, pid: nat, stopOk: bool, gitOk: bool)
    requires Inv(w) && pid in w.processes && w.processes[pid].phase.Begun?
    ensures var v := After(w, Alone(pid, stopOk, gitOk));
            pid !in v.processes && v.rows == RunRelease(w.rows, w.disk, w.processes[pid].session, stopOk, gitOk).0
  {
    var steps := Alone(pid, stopOk, gitOk);
    var w1 := Do(w, steps[0]);
    StepKeepsInv(w, steps[0]);
    var w2 := Do(w1, steps[1]);
    StepKeepsInv(w1, steps[1]);
    assert After(w, steps) == After(w2, steps[2..]);
    assert w2.disk == w.disk;
    if pid in w2.processes {
      ReturningAlone(w2, pid, gitOk);
    } else {
      GoneStaysGone(w2, steps[2..], pid);
    }
  }

  lemma {:induction false} GoneStaysGone(w: World, steps: seq<Step>, pid: nat)
    requires Inv(w) && pid !in w.processes
    requires forall k :: 0 <= k < |steps| ==> steps[k].Advance? && steps[k].pid == pid
    ensures After(w, steps) == w
    decreases |steps|
  {
    if steps != [] {
      StepKeepsInv(w, steps[0]);
      GoneStaysGone(w, steps[1..], pid);
    }
  }

  lemma ReturningAlone(w: World, pid: nat, gitOk: bool)
    requires Inv(w) && pid in w.processes && w.processes[pid].phase.Stopped?
    ensures var v := After(w, [Advance(pid, true), Advance(pid, true), Advance(pid, gitOk), Advance(pid, true)]);
            var (s, c) := (w.processes[pid].session, w.processes[pid].phase.claim);
            var (rows, ok) := ReturnCheckout(w.rows, w.disk, s, c, gitOk);
            pid !in v.processes && v.rows == Settle(rows, s, c, ok)
  {
    var steps := [Advance(pid, true), Advance(pid, true), Advance(pid, gitOk), Advance(pid, true)];
    var w1 := Do(w, steps[0]);
    StepKeepsInv(w, steps[0]);
    var w2 := Do(w1, steps[1]);
    StepKeepsInv(w1, steps[1]);
    LookingAlone(w, pid, gitOk);
    assert steps[1..][1..] == steps[2..] == [Advance(pid, gitOk), Advance(pid, true)];
    assert After(w, steps) == After(w2, steps[2..]);
    SettlingAlone(w2, pid, gitOk);
  }

  lemma LookingAlone(w: World, pid: nat, gitOk: bool)
    requires Inv(w) && pid in w.processes && w.processes[pid].phase.Stopped?
    requires Inv(Do(w, Advance(pid, true)))
    ensures var v := Do(Do(w, Advance(pid, true)), Advance(pid, true));
            var (s, c) := (w.processes[pid].session, w.processes[pid].phase.claim);
            var (rows, ok) := ReturnCheckout(w.rows, w.disk, s, c, gitOk);
            if pid in v.processes
            then v.processes[pid].phase.HasClaim() && Remaining(v.processes[pid].phase) <= 2
                 && Finished(v, v.processes[pid], gitOk) == Settle(rows, s, c, ok)
            else v.rows == Settle(rows, s, c, ok)
  {
    var v := Do(w, Advance(pid, true));
    assert v.rows == w.rows && v.disk == w.disk && pid in v.processes;
    assert v.processes[pid].session == w.processes[pid].session
           && v.processes[pid].phase.claim == w.processes[pid].phase.claim;
  }

  /** The rows a release leaves once it knows what its checkout calls for. */
  function Finished(w: World, q: Process, gitOk: bool): Rows {
    var s := q.session;
    match q.phase
    case Settling(c, ok) => Settle(w.rows, s, c, ok)
    case NotHeld(c) => Settle(w.rows, s, c, AlreadyReturned(w.rows, w.disk, c))
    case Missing(c, p) =>
      Settle(RemoveSlot(w.rows, p, s, c.incarnation, c.lease), s, c, CanRemove(w.rows, p, s, c.incarnation, c.lease))
    case Recycling(c, p) =>
      if gitOk then Settle(FreeSlot(w.rows, p, s, c.incarnation, c.lease), s, c,
                           CanFree(w.rows, p, s, c.incarnation, c.lease))
      else Settle(w.rows, s, c, false)
    case _ => w.rows
  }

  lemma TurnAlone(w: World, pid: nat, ok: bool)
    requires Inv(w) && pid in w.processes && w.processes[pid].phase.HasClaim() && Remaining(w.processes[pid].phase) <= 2
    ensures var v := Advanced(w, pid, ok);
            if pid in v.processes
            then v.processes[pid].phase.Settling? && Finished(v, v.processes[pid], true)
              == Finished(w, w.processes[pid], ok)
            else v.rows == Finished(w, w.processes[pid], ok)
    ensures w.processes[pid].phase.Settling? ==> pid !in Advanced(w, pid, ok).processes
  {
  }

  lemma SettlingAlone(w: World, pid: nat, gitOk: bool)
    requires Inv(w)
    requires pid in w.processes ==> w.processes[pid].phase.HasClaim() && Remaining(w.processes[pid].phase) <= 2
    ensures var v := After(w, [Advance(pid, gitOk), Advance(pid, true)]);
            pid !in v.processes
            && v.rows == if pid in w.processes then Finished(w, w.processes[pid], gitOk) else w.rows
  {
    var steps := [Advance(pid, gitOk), Advance(pid, true)];
    if pid !in w.processes {
      GoneStaysGone(w, steps, pid);
      return;
    }
    TurnAlone(w, pid, gitOk);
    var w1 := Do(w, steps[0]);
    StepKeepsInv(w, steps[0]);
    assert After(w, steps) == After(w1, [Advance(pid, true)]);
    if pid in w1.processes {
      TurnAlone(w1, pid, true);
      StepKeepsInv(w1, steps[1]);
      var w2 := Do(w1, steps[1]);
      assert [Advance(pid, true)][1..] == [] && After(w2, []) == w2;
      assert After(w1, [Advance(pid, true)]) == w2;
    } else {
      GoneStaysGone(w1, [Advance(pid, true)], pid);
    }
  }
}
