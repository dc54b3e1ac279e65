/** When a release holds the lock it needs: what its caller can check as it begins; and the runs that go wrong where it
    does not. */
module ReleaseRuns {
  import opened NinoxTypes
  import opened ReleaseStore
  import opened ReleaseProtocol
  import opened ReleaseLock
  import opened ReleaseOutcomes

  // ---------------------------------------------------------------- beginning where the lock will be held

  /** The worker can get no checkout any more: it is bound to a lease it does not hold. */
  predicate WithoutForGood(rows: Rows, s: SessionId) {
    s in rows.workers && rows.workers[s].lease.Some? && !rows.workers[s].state.Allocating? && !rows.HasActive(s)
  }

  /** The session's checkout is on disk; or it has none and cannot get one. */
  predicate SafeToBegin(rows: Rows, disk: set<Path>, s: SessionId) {
    if rows.HasActive(s)
    then forall p :: p in rows.pool && rows.pool[p].IsActive() && rows.pool[p].session == s ==> p in disk
    else WithoutForGood(rows, s)
  }

  predicate ShelteredRun(w: World, steps: seq<Step>)
    requires Inv(w)
    decreases |steps|
  {
    steps == []
    || ((steps[0].Begin? ==> SafeToBegin(w.rows, w.disk, steps[0].session))
        && (StepKeepsInv(w, steps[0]); ShelteredRun(Do(w, steps[0]), steps[1..])))
  }

  function LockAimed(q: Process): Option<Path> {
    if q.phase.Waiting? then q.phase.on else q.lock
  }

  /** A release that has claimed nothing yet has, or waits for, the lock that it will need. */
  predicate Ready(rows: Rows, q: Process) {
    !q.phase.HasClaim() ==>
      Covers(rows, q.session, LockAimed(q)) && (rows.HasActive(q.session) || WithoutForGood(rows, q.session))
  }

  predicate AllReady(w: World) {
    forall pid :: pid in w.processes ==> Ready(w.rows, w.processes[pid])
  }

  lemma ReadyClaimsUnderLock(w: World, step: Step)
    requires Inv(w) && AllReady(w)
    ensures ClaimsUnderLock(w, step)
  {
    if step.Advance? && step.pid in w.processes {
      assert Ready(w.rows, w.processes[step.pid]);
    }
  }

  /** A session that loses its checkout under the lock is without one for good. */
  lemma LosingIsForGood(w: World, pid: nat, ok: bool, s: SessionId)
    requires Inv(w) && Guarded(w) && pid in w.processes && w.rows.HasActive(s)
             && !Advanced(w, pid, ok).rows.HasActive(s)
    ensures WithoutForGood(Advanced(w, pid, ok).rows, s)
  {
    var p :| p in w.rows.pool && w.rows.pool[p].IsActive() && w.rows.pool[p].session == s;
    assert Backed(w.rows, p);
    AdvanceKeepsIncarnations(w, pid, ok, s);
    if !w.rows.workers[s].state.ReleaseClaimed? {
      OnlyClaimedWorkersLose(w, pid, ok, s);
    }
    AdvanceAllocatesNobody(w, pid, ok, s);
  }

  lemma AdvanceAllocatesNobody(w: World, pid: nat, ok: bool, s: SessionId)
    requires Inv(w) && pid in w.processes && s in w.rows.workers && !w.rows.workers[s].state.Allocating?
    ensures s in Advanced(w, pid, ok).rows.workers && !Advanced(w, pid, ok).rows.workers[s].state.Allocating?
  {
    AdvancedRows(w, pid, ok);
  }

  lemma AdvanceKeepsReady(w: World, pid: nat, ok: bool, q: Process)
    requires Inv(w) && Guarded(w) && pid in w.processes && Ready(w.rows, q)
    ensures Ready(Advanced(w, pid, ok).rows, q)
  {
    AdvanceOnlyTakes(w, pid, ok);
    if !q.phase.HasClaim() {
      if w.rows.HasActive(q.session) {
        if !Advanced(w, pid, ok).rows.HasActive(q.session) {
          LosingIsForGood(w, pid, ok, q.session);
        }
      } else {
        AdvanceKeepsIncarnations(w, pid, ok, q.session);
        AdvanceAllocatesNobody(w, pid, ok, q.session);
      }
    }
  }

  /** Taking the lock it waited for keeps a release ready. */
  lemma LockingKeepsReady(w: World, pid: nat, ok: bool)
    requires Inv(w) && pid in w.processes && Ready(w.rows, w.processes[pid])
    requires pid in Advanced(w, pid, ok).processes && Ready(Advanced(w, pid, ok).rows, w.processes[pid])
    requires w.processes[pid].phase.Waiting? ==> w.processes[pid].lock == None
    ensures Ready(Advanced(w, pid, ok).rows, Advanced(w, pid, ok).processes[pid])
  {
  }

  /** Whoever waits holds nothing yet. */
  predicate WaitersHoldNothing(w: World) {
    forall pid :: pid in w.processes && w.processes[pid].phase.Waiting? ==> w.processes[pid].lock == None
  }

  lemma StepKeepsWaiters(w: World, step: Step)
    requires Inv(w) && WaitersHoldNothing(w)
    ensures WaitersHoldNothing(Do(w, step))
  {
    if Enabled(w, step) && step.Advance? {
      var v := Do(w, step);
      OthersStay(w, step.pid, step.ok);
      forall q | q in v.processes && q != step.pid ensures q in w.processes && v.processes[q] == w.processes[q] {
        assert q in v.processes - {step.pid};
      }
    }
  }

  lemma OthersKeepReady(w: World, step: Step, q: Process)
    requires Inv(w) && !step.Advance? && Ready(w.rows, q)
    ensures Ready(Do(w, step).rows, q)
  {
    var v := Do(w, step);
    if !q.phase.HasClaim() {
      CheckoutsStay(w, step, q.session);
      forall p | p in v.rows.pool && v.rows.pool[p].IsActive() && v.rows.pool[p].session == q.session
        ensures LockAimed(q) == Some(p)
      {
        assert p in w.rows.pool && w.rows.pool[p].IsActive() && w.rows.pool[p].session == q.session;
      }
    }
  }

  lemma BeginningIsReady(w: World, pid: nat, s: SessionId)
    requires Inv(w) && pid !in w.processes && s in w.rows.workers && SafeToBegin(w.rows, w.disk, s)
    ensures Ready(w.rows, Do(w, Begin(pid, s)).processes[pid])
  {
  }

  lemma StepKeepsReady(w: World, step: Step)
    requires Inv(w) && Guarded(w) && AllReady(w) && WaitersHoldNothing(w)
    requires step.Begin? ==> SafeToBegin(w.rows, w.disk, step.session)
    ensures AllReady(Do(w, step))
  {
    if Enabled(w, step) {
      var v := Do(w, step);
      if step.Advance? {
        OthersStay(w, step.pid, step.ok);
        forall pid | pid in v.processes ensures Ready(v.rows, v.processes[pid]) {
          if pid == step.pid {
            AdvanceKeepsReady(w, step.pid, step.ok, w.processes[pid]);
            LockingKeepsReady(w, pid, step.ok);
          } else {
            assert pid in v.processes - {step.pid};
            AdvanceKeepsReady(w, step.pid, step.ok, w.processes[pid]);
          }
        }
      } else {
        forall pid | pid in v.processes ensures Ready(v.rows, v.processes[pid]) {
          if pid in w.processes {
            OthersKeepReady(w, step, w.processes[pid]);
          } else {
            BeginningIsReady(w, pid, step.session);
          }
        }
      }
    }
  }

  lemma {:induction false} ShelteredRunsAreGuarded(w: World, steps: seq<Step>)
    requires Inv(w) && Guarded(w) && AllReady(w) && WaitersHoldNothing(w) && ShelteredRun(w, steps)
    ensures GuardedRun(w, steps)
    decreases |steps|
  {
    if steps != [] {
      ReadyClaimsUnderLock(w, steps[0]);
      StepKeepsGuarded(w, steps[0]);
      StepKeepsReady(w, steps[0]);
      StepKeepsWaiters(w, steps[0]);
      StepKeepsInv(w, steps[0]);
      ShelteredRunsAreGuarded(Do(w, steps[0]), steps[1..]);
    }
  }

  /** From the start, if every release begins while its session's checkout is on disk, or once the session can have
      none, then every claim is made under the lock, and live workers keep their checkouts. */
  lemma BeginningOnDiskIsSafe(steps: seq<Step>)
    requires (EmptyIsSound(); ShelteredRun(EMPTY, steps))
    ensures GuardedRun(EMPTY, steps) && Guarded(After(EMPTY, steps)) && Provided(After(EMPTY, steps).rows)
  {
    ShelteredRunsAreGuarded(EMPTY, steps);
    GuardedRunsProvide(EMPTY, steps);
  }

  // ---------------------------------------------------------------- runs that go wrong

  /** From the start, `steps` lead to `v`. */
  predicate LeadsTo(steps: seq<Step>, v: World) {
    EmptyIsSound();
    After(EMPTY, steps) == v
  }

  lemma OneMore(steps: seq<Step>, u: World, step: Step)
    requires LeadsTo(steps, u)
    ensures Inv(u) && LeadsTo(steps + [step], Do(u, step))
  {
    EmptyIsSound();
    StepKeepsInv(u, step);
    AfterConcat(EMPTY, steps, [step]);
    assert [step][0] == step && [step][1..] == [] && After(Do(u, step), []) == Do(u, step);
  }

  /** One worker, with checkout `p` in state `slot`, on its first incarnation and lease. */
  function Pooled(s: SessionId, p: Path, state: WorkerState, slot: SlotState, disk: set<Path>,
                  processes: map<nat, Process>): World
  {
    World(Rows(map[s := Worker(0, Some(0), p, state)], map[p := Slot(slot, s, 0, 0)], map[], {}), disk, processes,
          map[0 := s])
  }

  /** A worker that gets checkout `p` and finishes. Before it gets it, `meanwhile` happens. */
  function Hired(s: SessionId, p: Path, disk: set<Path>, meanwhile: seq<Step>): seq<Step> {
    [DiskIs(disk), Refile(s, 0, p)] + meanwhile + [Reserve(s, p, 0), Provision(p), Bind(s, p), Retain(s)]
  }

  function Allocated(s: SessionId, p: Path, disk: set<Path>, processes: map<nat, Process>): World {
    World(Rows(map[s := Worker(0, None, p, Allocating)], map[], map[], {}), disk, processes, map[0 := s])
  }

  lemma AllocatingRuns(s: SessionId, p: Path, disk: set<Path>)
    requires s != ""
    ensures LeadsTo([DiskIs(disk), Refile(s, 0, p)], Allocated(s, p, disk, map[]))
  {
    OneMore([], EMPTY, DiskIs(disk));
    var u := Do(EMPTY, DiskIs(disk));
    assert [] + [DiskIs(disk)] == [DiskIs(disk)];
    OneMore([DiskIs(disk)], u, Refile(s, 0, p));
    assert Do(u, Refile(s, 0, p)) == Allocated(s, p, disk, map[]);
    assert [DiskIs(disk)] + [Refile(s, 0, p)] == [DiskIs(disk), Refile(s, 0, p)];
  }

  /** From its allocation on, the worker gets its checkout and finishes. */
  lemma HiringRuns(steps: seq<Step>, s: SessionId, p: Path, disk: set<Path>, processes: map<nat, Process>)
    requires LeadsTo(steps, Allocated(s, p, disk, processes))
    ensures LeadsTo(steps + [Reserve(s, p, 0), Provision(p), Bind(s, p), Retain(s)],
                    Pooled(s, p, Retained, Leased, disk, processes))
  {
    var w := Allocated(s, p, disk, processes);
    var xs := steps + [Reserve(s, p, 0)];
    OneMore(steps, w, Reserve(s, p, 0));
    var u := Do(w, Reserve(s, p, 0));
    assert u.rows.pool == map[p := Slot(Provisioning, s, 0, 0)];
    OneMore(xs, u, Provision(p));
    var t := Do(u, Provision(p));
    assert t.rows.pool == map[p := Slot(Leased, s, 0, 0)] && t.rows.workers == w.rows.workers;
    FinishingRuns(xs + [Provision(p)], t, s, p);
    assert xs + [Provision(p)] + [Bind(s, p), Retain(s)]
           == steps + [Reserve(s, p, 0), Provision(p), Bind(s, p), Retain(s)];
  }

  lemma FinishingRuns(steps: seq<Step>, t: World, s: SessionId, p: Path)
    requires LeadsTo(steps, t)
    requires t.rows == Rows(map[s := Worker(0, None, p, Allocating)], map[p := Slot(Leased, s, 0, 0)], map[], {})
    requires t.issued == map[0 := s]
    ensures LeadsTo(steps + [Bind(s, p), Retain(s)], Pooled(s, p, Retained, Leased, t.disk, t.processes))
  {
    OneMore(steps, t, Bind(s, p));
    assert t.rows.pool[p].IsActive() && ActivePath(t.rows, s) == Some(p);
    var v := Do(t, Bind(s, p));
    assert v == Pooled(s, p, Active, Leased, t.disk, t.processes);
    OneMore(steps + [Bind(s, p)], v, Retain(s));
    assert Do(v, Retain(s)) == Pooled(s, p, Retained, Leased, t.disk, t.processes);
    assert steps + [Bind(s, p)] + [Retain(s)] == steps + [Bind(s, p), Retain(s)];
  }

  /** A release that holds no lock claims the worker, and then the worker can lose its checkout while active. */
  lemma UnlockedClaimLoses(steps: seq<Step>, s: SessionId, p: Path, disk: set<Path>)
    requires LeadsTo(steps, Pooled(s, p, Retained, Leased, disk, map[0 := Process(s, None, Begun)]))
    ensures exists more :: Inv(EMPTY) && Deprived(After(EMPTY, steps + [Advance(0, true)] + more).rows, s)
  {
    var w := Pooled(s, p, Retained, Leased, disk, map[0 := Process(s, None, Begun)]);
    OneMore(steps, w, Advance(0, true));
    var slot := w.rows.pool[p];
    assert slot.IsActive() && slot.HeldBy(s, 0, Some(0)) && CanClaim(w.rows, s, 0);
    assert !ClaimsUnderLock(w, Advance(0, true));
    UnguardedClaimsCanLose(w, 0);
    var u := Do(w, Advance(0, true));
    var v :| Inv(v) && Reaches(u, v) && Deprived(v.rows, s);
    var more :| GuardedRun(u, more) && After(u, more) == v;
    EmptyIsSound();
    AfterConcat(EMPTY, steps + [Advance(0, true)], more);
  }

  /** Where the directory is missing a release takes no lock, and every session can lose its checkout. */
  lemma MissingDirectoryLosesACheckout(s: SessionId, p: Path)
    requires s != ""
    ensures var steps := Hired(s, p, {p}, []) + [DiskIs({}), Begin(0, s), Advance(0, true), Advance(0, true)];
            exists more :: Inv(EMPTY) && Deprived(After(EMPTY, steps + more).rows, s)
  {
    HiredFromStart(s, p);
    var hired := Hired(s, p, {p}, []);
    OneMore(hired, Pooled(s, p, Retained, Leased, {p}, map[]), DiskIs({}));
    var w := Pooled(s, p, Retained, Leased, {}, map[]);
    assert Do(Pooled(s, p, Retained, Leased, {p}, map[]), DiskIs({})) == w;
    var gone := hired + [DiskIs({})];
    OneMore(gone, w, Begin(0, s));
    var u := Do(w, Begin(0, s));
    assert u == Pooled(s, p, Retained, Leased, {}, map[0 := Process(s, None, Waiting(None))]);
    OneMore(gone + [Begin(0, s)], u, Advance(0, true));
    assert Do(u, Advance(0, true)) == Pooled(s, p, Retained, Leased, {}, map[0 := Process(s, None, Begun)]);
    UnlockedClaimLoses(gone + [Begin(0, s)] + [Advance(0, true)], s, p, {});
    assert gone + [Begin(0, s)] + [Advance(0, true)] + [Advance(0, true)]
        == hired + [DiskIs({}), Begin(0, s), Advance(0, true), Advance(0, true)];
  }

  lemma HiredFromStart(s: SessionId, p: Path)
    requires s != ""
    ensures LeadsTo(Hired(s, p, {p}, []), Pooled(s, p, Retained, Leased, {p}, map[]))
  {
    AllocatingRuns(s, p, {p});
    HiringRuns([DiskIs({p}), Refile(s, 0, p)], s, p, {p}, map[]);
    assert Hired(s, p, {p}, [])
        == [DiskIs({p}), Refile(s, 0, p)] + [Reserve(s, p, 0), Provision(p), Bind(s, p), Retain(s)];
  }

  /** So can one whose release begins before it has a checkout, though the directory is on disk when it does. */
  lemma BeginningTooEarlyLosesACheckout(s: SessionId, p: Path)
    requires s != ""
    ensures var steps := Hired(s, p, {p}, [Begin(0, s), Advance(0, true)]) + [Advance(0, true)];
            exists more :: Inv(EMPTY) && Deprived(After(EMPTY, steps + more).rows, s)
  {
    var first := [DiskIs({p}), Refile(s, 0, p)];
    AllocatingRuns(s, p, {p});
    var w := Allocated(s, p, {p}, map[]);
    OneMore(first, w, Begin(0, s));
    var u := Do(w, Begin(0, s));
    assert u == Allocated(s, p, {p}, map[0 := Process(s, None, Waiting(None))]);
    OneMore(first + [Begin(0, s)], u, Advance(0, true));
    assert Do(u, Advance(0, true)) == Allocated(s, p, {p}, map[0 := Process(s, None, Begun)]);
    var begun := first + [Begin(0, s)] + [Advance(0, true)];
    HiringRuns(begun, s, p, {p}, map[0 := Process(s, None, Begun)]);
    assert begun + [Reserve(s, p, 0), Provision(p), Bind(s, p), Retain(s)]
           == Hired(s, p, {p}, [Begin(0, s), Advance(0, true)]);
    UnlockedClaimLoses(Hired(s, p, {p}, [Begin(0, s), Advance(0, true)]), s, p, {p});
  }

  // ---------------------------------------------------------------- a release that is too late to be repaired

  function Releasing(s: SessionId, p: Path, phase: Phase): World {
    Pooled(s, p, ReleaseClaimed, Leased, {p}, map[0 := Process(s, Some(p), phase)])
  }

  lemma ClaimingRuns(steps: seq<Step>, s: SessionId, p: Path)
    requires LeadsTo(steps, Pooled(s, p, Retained, Leased, {p}, map[]))
    ensures LeadsTo(steps + [Begin(0, s), Advance(0, true), Advance(0, true)],
                    Releasing(s, p, Claimed(Worker(0, Some(0), p, ReleaseClaimed))))
  {
    var w := Pooled(s, p, Retained, Leased, {p}, map[]);
    assert w.rows.pool[p].IsActive() && ActivePath(w.rows, s) == Some(p);
    OneMore(steps, w, Begin(0, s));
    var u := Pooled(s, p, Retained, Leased, {p}, map[0 := Process(s, None, Waiting(Some(p)))]);
    assert Do(w, Begin(0, s)) == u && !Taken(u, p);
    OneMore(steps + [Begin(0, s)], u, Advance(0, true));
    var t := Pooled(s, p, Retained, Leased, {p}, map[0 := Process(s, Some(p), Begun)]);
    assert Do(u, Advance(0, true)) == t;
    OneMore(steps + [Begin(0, s)] + [Advance(0, true)], t, Advance(0, true));
    assert t.rows.pool[p].HeldBy(s, 0, Some(0)) && CanClaim(t.rows, s, 0);
    assert Do(t, Advance(0, true)) == Releasing(s, p, Claimed(Worker(0, Some(0), p, ReleaseClaimed)));
    assert steps + [Begin(0, s)] + [Advance(0, true)] + [Advance(0, true)]
        == steps + [Begin(0, s), Advance(0, true), Advance(0, true)];
  }

  /** It frees the checkout and crashes. */
  lemma FreeingRuns(steps: seq<Step>, s: SessionId, p: Path)
    requires LeadsTo(steps, Releasing(s, p, Claimed(Worker(0, Some(0), p, ReleaseClaimed))))
    ensures LeadsTo(steps + [Advance(0, true), Advance(0, true), Advance(0, true), Advance(0, true), Crash(0)],
                    Pooled(s, p, ReleaseClaimed, Free, {p}, map[]))
  {
    var c := Worker(0, Some(0), p, ReleaseClaimed);
    var go := Advance(0, true);
    OneMore(steps, Releasing(s, p, Claimed(c)), go);
    assert Do(Releasing(s, p, Claimed(c)), go) == Releasing(s, p, Stopped(c));
    var u := Releasing(s, p, Stopped(c));
    assert u.rows.pool[p].IsActive() && ActivePath(u.rows, s) == Some(p);
    OneMore(steps + [go], u, go);
    assert Do(u, go) == Releasing(s, p, Found(c, p));
    OneMore(steps + [go] + [go], Releasing(s, p, Found(c, p)), go);
    assert Do(Releasing(s, p, Found(c, p)), go) == Releasing(s, p, Recycling(c, p));
    FreedRuns(steps + [go] + [go] + [go], s, p);
    assert steps + [go] + [go] + [go] + [go, Crash(0)] == steps + [go, go, go, go, Crash(0)];
  }

  lemma FreedRuns(steps: seq<Step>, s: SessionId, p: Path)
    requires LeadsTo(steps, Releasing(s, p, Recycling(Worker(0, Some(0), p, ReleaseClaimed), p)))
    ensures LeadsTo(steps + [Advance(0, true), Crash(0)], Pooled(s, p, ReleaseClaimed, Free, {p}, map[]))
  {
    var c := Worker(0, Some(0), p, ReleaseClaimed);
    var w := Releasing(s, p, Recycling(c, p));
    OneMore(steps, w, Advance(0, true));
    assert CanFree(w.rows, p, s, 0, Some(0));
    var u := Pooled(s, p, ReleaseClaimed, Free, {p}, map[0 := Process(s, Some(p), Settling(c, true))]);
    assert Do(w, Advance(0, true)) == u;
    OneMore(steps + [Advance(0, true)], u, Crash(0));
    assert Do(u, Crash(0)) == Pooled(s, p, ReleaseClaimed, Free, {p}, map[]);
    assert steps + [Advance(0, true)] + [Crash(0)] == steps + [Advance(0, true), Crash(0)];
  }

  /** The world once `t` has leased the checkout that `s` gave back. */
  function LeasedAgain(s: SessionId, t: SessionId, p: Path, processes: map<nat, Process>): World {
    World(Rows(map[s := Worker(0, Some(0), p, ReleaseClaimed), t := Worker(1, None, p, Allocating)],
               map[p := Slot(Provisioning, t, 1, 1)], map[], {}), {p}, processes, map[0 := s, 1 := t])
  }

  lemma LeasingAgainRuns(steps: seq<Step>, s: SessionId, t: SessionId, p: Path)
    requires LeadsTo(steps, Pooled(s, p, ReleaseClaimed, Free, {p}, map[])) && t != "" && s != t
    ensures LeadsTo(steps + [Refile(t, 1, p), Reserve(t, p, 1)], LeasedAgain(s, t, p, map[]))
  {
    var w := Pooled(s, p, ReleaseClaimed, Free, {p}, map[]);
    OneMore(steps, w, Refile(t, 1, p));
    var u := Do(w, Refile(t, 1, p));
    assert u.rows.workers == LeasedAgain(s, t, p, map[]).rows.workers && u.rows.pool == w.rows.pool
           && u.issued == map[0 := s, 1 := t];
    OneMore(steps + [Refile(t, 1, p)], u, Reserve(t, p, 1));
    assert Do(u, Reserve(t, p, 1)).rows.pool == map[p := Slot(Provisioning, t, 1, 1)];
    assert Do(u, Reserve(t, p, 1)) == LeasedAgain(s, t, p, map[]);
    assert steps + [Refile(t, 1, p)] + [Reserve(t, p, 1)] == steps + [Refile(t, 1, p), Reserve(t, p, 1)];
  }

  lemma RerunRuns(steps: seq<Step>, s: SessionId, t: SessionId, p: Path, gitOk: bool)
    requires LeadsTo(steps, LeasedAgain(s, t, p, map[])) && s != t
    ensures Inv(EMPTY)
    ensures Stranded(After(EMPTY, steps + [Begin(1, s), Advance(1, true)] + Alone(1, true, gitOk)).rows, s)
  {
    var w := LeasedAgain(s, t, p, map[]);
    OneMore(steps, w, Begin(1, s));
    var u := Do(w, Begin(1, s));
    assert u == LeasedAgain(s, t, p, map[1 := Process(s, None, Waiting(Some(p)))]) && !Taken(u, p);
    OneMore(steps + [Begin(1, s)], u, Advance(1, true));
    var v := Do(u, Advance(1, true));
    assert v == LeasedAgain(s, t, p, map[1 := Process(s, Some(p), Begun)]);
    AloneItIsTheRelease(v, 1, true, gitOk);
    RerunAfterReleaseStrands(v.rows, v.disk, s, gitOk);
    EmptyIsSound();
    assert steps + [Begin(1, s)] + [Advance(1, true)] == steps + [Begin(1, s), Advance(1, true)];
    AfterConcat(EMPTY, steps + [Begin(1, s), Advance(1, true)], Alone(1, true, gitOk));
  }

  /** From the start: a release frees its checkout and crashes, another session leases the checkout, and the release,
      run again, leaves its worker bound to a lease that it does not hold, for good. */
  lemma CrashAndReleaseStrands(s: SessionId, t: SessionId, p: Path, gitOk: bool)
    requires s != "" && t != "" && s != t
    ensures Inv(EMPTY)
    ensures var go := Advance(0, true);
            var crashed := Hired(s, p, {p}, []) + [Begin(0, s), go, go] + [go, go, go, go, Crash(0)];
            var again := crashed + [Refile(t, 1, p), Reserve(t, p, 1)] + [Begin(1, s), Advance(1, true)]
              + Alone(1, true, gitOk);
            Stranded(After(EMPTY, again).rows, s)
  {
    var hired := Hired(s, p, {p}, []);
    HiredFromStart(s, p);
    var go := Advance(0, true);
    ClaimingRuns(hired, s, p);
    FreeingRuns(hired + [Begin(0, s), go, go], s, p);
    LeasingAgainRuns(hired + [Begin(0, s), go, go] + [go, go, go, go, Crash(0)], s, t, p);
    var leased := hired + [Begin(0, s), go, go] + [go, go, go, go, Crash(0)] + [Refile(t, 1, p), Reserve(t, p, 1)];
    RerunRuns(leased, s, t, p, gitOk);
  }
}
