/** What the lock of a release is for: a live worker never loses its checkout, exactly as long as every release that
    claims a worker holds the lock of that worker's checkout when it does. */
module ReleaseLock {
  import opened NinoxTypes
  import opened ReleaseStore
  import opened ReleaseProtocol

  predicate Live(rows: Rows, s: SessionId) {
    s in rows.workers && (rows.workers[s].state.Allocating? || rows.workers[s].state.Active?)
  }

  /** A live worker that is bound to a lease has a checkout; so has one whose runtime is being started. */
  predicate Provided(rows: Rows) {
    forall s :: s in rows.workers && (Live(rows, s) || s in rows.starting) && rows.workers[s].lease.Some? ==>
      rows.HasActive(s)
  }

  /** An active worker bound to a lease whose checkout is gone. */
  predicate Deprived(rows: Rows, s: SessionId) {
    InState(rows, s, Active) && rows.workers[s].lease.Some? && !rows.HasActive(s)
  }

  // ---------------------------------------------------------------- claims under the lock

  /** Every checkout of `s`, which is at most one, is the one that `lock` names. */
  predicate Covers(rows: Rows, s: SessionId, lock: Option<Path>) {
    forall p :: p in rows.pool && rows.pool[p].IsActive() && rows.pool[p].session == s ==> lock == Some(p)
  }

  /** If this step claims a worker, it does so under the lock of the worker's checkout. */
  predicate ClaimsUnderLock(w: World, step: Step) {
    (step.Advance? && step.pid in w.processes && w.processes[step.pid].phase.Begun? && step.ok
     && ClaimOf(w.rows, w.processes[step.pid].session).Some?) ==>
      Covers(w.rows, w.processes[step.pid].session, w.processes[step.pid].lock)
  }

  predicate GuardedRun(w: World, steps: seq<Step>)
    requires Inv(w)
    decreases |steps|
  {
    steps == []
    || (ClaimsUnderLock(w, steps[0]) && (StepKeepsInv(w, steps[0]); GuardedRun(Do(w, steps[0]), steps[1..])))
  }

  predicate DistinctLocks(w: World) {
    forall a, b :: a in w.processes && b in w.processes && a != b && w.processes[a].lock.Some? ==>
      w.processes[a].lock != w.processes[b].lock
  }

  predicate IsCurrent(rows: Rows, q: Process) {
    q.phase.HasClaim() && q.session in rows.workers && rows.workers[q.session].incarnation == q.phase.claim.incarnation
  }

  /** As long as its worker has a checkout, a release under a claim has the worker claimed and holds the checkout's
      lock. */
  predicate Guards(rows: Rows, q: Process) {
    IsCurrent(rows, q) && rows.HasActive(q.session) ==>
      rows.workers[q.session].state.ReleaseClaimed? && Covers(rows, q.session, q.lock)
  }

  predicate Guarded(w: World) {
    DistinctLocks(w) && forall pid :: pid in w.processes ==> Guards(w.rows, w.processes[pid])
  }

  // ---------------------------------------------------------------- steps keep it

  lemma AdvanceTouchesOneWorker(w: World, pid: nat, ok: bool, t: SessionId)
    requires Inv(w) && pid in w.processes && t != w.processes[pid].session
    ensures t in Advanced(w, pid, ok).rows.workers <==> t in w.rows.workers
    ensures t in w.rows.workers ==> Advanced(w, pid, ok).rows.workers[t] == w.rows.workers[t]
  {
    AdvancedRows(w, pid, ok);
  }

  /** A release adds no checkout and starts no runtime. */
  lemma AdvanceOnlyTakes(w: World, pid: nat, ok: bool)
    requires Inv(w) && pid in w.processes
    ensures var v := Advanced(w, pid, ok);
            v.rows.starting == w.rows.starting
            && forall p :: p in v.rows.pool && v.rows.pool[p].IsActive() ==>
              p in w.rows.pool && w.rows.pool[p] == v.rows.pool[p]
  {
    AdvancedRows(w, pid, ok);
  }

  lemma OthersStay(w: World, pid: nat, ok: bool)
    requires Inv(w) && pid in w.processes
    ensures Advanced(w, pid, ok).processes - {pid} == w.processes - {pid}
  {
  }

  /** A release keeps the lock it holds, and takes only one that nobody holds. */
  lemma LocksAreTakenFree(w: World, pid: nat, ok: bool)
    requires Inv(w) && pid in w.processes && pid in Advanced(w, pid, ok).processes
    ensures var (q, r) := (w.processes[pid], Advanced(w, pid, ok).processes[pid]);
            r.session == q.session && (r.lock == q.lock || (r.lock.Some? && !Taken(w, r.lock.value)))
  {
  }

  lemma AdvanceKeepsLocksDistinct(w: World, pid: nat, ok: bool)
    requires Inv(w) && pid in w.processes && DistinctLocks(w)
    ensures DistinctLocks(Advanced(w, pid, ok))
  {
    var v := Advanced(w, pid, ok);
    OthersStay(w, pid, ok);
    forall a | a in v.processes && a != pid ensures a in w.processes && v.processes[a] == w.processes[a] {
      assert a in v.processes - {pid};
    }
    if pid in v.processes {
      LocksAreTakenFree(w, pid, ok);
    }
  }

  /** The release itself goes on guarding what it claimed. */
  lemma AdvanceKeepsOwnGuard(w: World, pid: nat, ok: bool)
    requires Inv(w) && pid in w.processes && Guards(w.rows, w.processes[pid]) && ClaimsUnderLock(w, Advance(pid, ok))
    requires pid in Advanced(w, pid, ok).processes
    ensures Guards(Advanced(w, pid, ok).rows, Advanced(w, pid, ok).processes[pid])
  {
    var (v, q) := (Advanced(w, pid, ok), w.processes[pid]);
    AdvancedRows(w, pid, ok);
    if q.phase.HasClaim() {
      assert v.processes[pid].session == q.session && v.processes[pid].lock == q.lock;
      assert v.processes[pid].phase.HasClaim() && v.processes[pid].phase.claim == q.phase.claim;
      AdvanceOnlyTakes(w, pid, ok);
    }
  }

  /** It changes the state of a worker that has a checkout only if it holds that checkout's lock. */
  lemma OnlyTheLockHolderMovesAWorker(w: World, pid: nat, ok: bool, s: SessionId)
    requires Inv(w) && pid in w.processes && Guards(w.rows, w.processes[pid]) && ClaimsUnderLock(w, Advance(pid, ok))
    requires s in w.rows.workers && w.rows.HasActive(s) && !Covers(w.rows, s, w.processes[pid].lock)
    ensures s in Advanced(w, pid, ok).rows.workers && Advanced(w, pid, ok).rows.workers[s] == w.rows.workers[s]
  {
    if s != w.processes[pid].session {
      AdvanceTouchesOneWorker(w, pid, ok, s);
    }
  }

  lemma AdvanceKeepsOtherGuard(w: World, pid: nat, ok: bool, other: nat)
    requires Inv(w) && Guarded(w) && pid in w.processes && ClaimsUnderLock(w, Advance(pid, ok))
    requires other in w.processes && other != pid
    ensures Guards(Advanced(w, pid, ok).rows, w.processes[other])
  {
    var (v, q) := (Advanced(w, pid, ok), w.processes[other]);
    assert Guards(w.rows, q) && Guards(w.rows, w.processes[pid]);
    AdvanceOnlyTakes(w, pid, ok);
    if IsCurrent(v.rows, q) && v.rows.HasActive(q.session) {
      var p :| p in v.rows.pool && v.rows.pool[p].IsActive() && v.rows.pool[p].session == q.session;
      assert w.rows.pool[p] == v.rows.pool[p] && w.rows.HasActive(q.session);
      AdvanceKeepsIncarnations(w, pid, ok, q.session);
      assert q.lock == Some(p);
      OnlyTheLockHolderMovesAWorker(w, pid, ok, q.session);
    }
  }

  lemma AdvanceKeepsIncarnations(w: World, pid: nat, ok: bool, s: SessionId)
    requires Inv(w) && pid in w.processes
    ensures s in Advanced(w, pid, ok).rows.workers <==> s in w.rows.workers
    ensures s in w.rows.workers ==> Advanced(w, pid, ok).rows.workers[s].incarnation == w.rows.workers[s].incarnation
                                    && Advanced(w, pid, ok).rows.workers[s].lease == w.rows.workers[s].lease
  {
    AdvancedRows(w, pid, ok);
  }

  lemma AdvanceKeepsGuarded(w: World, pid: nat, ok: bool)
    requires Inv(w) && Guarded(w) && pid in w.processes && ClaimsUnderLock(w, Advance(pid, ok))
    ensures Guarded(Advanced(w, pid, ok))
  {
    var v := Advanced(w, pid, ok);
    AdvanceKeepsLocksDistinct(w, pid, ok);
    OthersStay(w, pid, ok);
    assert Guards(w.rows, w.processes[pid]);
    forall other | other in v.processes ensures Guards(v.rows, v.processes[other]) {
      if other == pid {
        AdvanceKeepsOwnGuard(w, pid, ok);
      } else {
        assert other in v.processes - {pid};
        AdvanceKeepsOtherGuard(w, pid, ok, other);
      }
    }
  }

  /** Leases, binds and runtimes leave a release under a claim guarding what it did: they move no claimed worker, and
      give no new checkout to an incarnation that was ever claimed. */
  lemma OthersKeepGuard(w: World, step: Step, q: Process)
    requires Inv(w) && !step.Advance? && Sound(w, q) && Guards(w.rows, q)
    ensures Guards(Do(w, step).rows, q)
  {
    var v := Do(w, step);
    if IsCurrent(v.rows, q) {
      assert IsCurrent(w.rows, q);
      assert v.rows.HasActive(q.session) ==> w.rows.HasActive(q.session);
    }
  }

  lemma StepKeepsGuarded(w: World, step: Step)
    requires Inv(w) && Guarded(w) && ClaimsUnderLock(w, step)
    ensures Guarded(Do(w, step))
  {
    if Enabled(w, step) {
      if step.Advance? {
        AdvanceKeepsGuarded(w, step.pid, step.ok);
      } else {
        var v := Do(w, step);
        forall pid | pid in v.processes ensures Guards(v.rows, v.processes[pid]) {
          if pid in w.processes {
            assert Sound(w, w.processes[pid]) && Guards(w.rows, w.processes[pid]);
            OthersKeepGuard(w, step, w.processes[pid]);
          }
        }
      }
    }
  }

  // ---------------------------------------------------------------- live workers keep their checkouts

  /** Under the lock only a claimed worker loses its checkout. */
  lemma OnlyClaimedWorkersLose(w: World, pid: nat, ok: bool, s: SessionId)
    requires Inv(w) && Guarded(w) && pid in w.processes && s in w.rows.workers
             && !w.rows.workers[s].state.ReleaseClaimed?
    ensures w.rows.HasActive(s) ==> Advanced(w, pid, ok).rows.HasActive(s)
  {
    var q := w.processes[pid];
    if w.rows.HasActive(s) {
      var p :| p in w.rows.pool && w.rows.pool[p].IsActive() && w.rows.pool[p].session == s;
      var slot := w.rows.pool[p];
      assert Backed(w.rows, p) && Guards(w.rows, q);
      assert !MayEndLease(w, Advance(pid, ok), p, s, slot.owner, slot.lease);
      AdvanceKeepsLease(w, pid, ok, p, s, slot.owner, slot.lease);
    }
  }

  lemma AdvanceKeepsProvided(w: World, pid: nat, ok: bool)
    requires Inv(w) && Guarded(w) && Provided(w.rows) && pid in w.processes
    ensures Provided(Advanced(w, pid, ok).rows)
  {
    var v := Advanced(w, pid, ok);
    AdvanceOnlyTakes(w, pid, ok);
    forall s | s in v.rows.workers && (Live(v.rows, s) || s in v.rows.starting) && v.rows.workers[s].lease.Some?
      ensures v.rows.HasActive(s)
    {
      AdvanceKeepsIncarnations(w, pid, ok, s);
      AdvanceWakesNobody(w, pid, ok, s);
      OnlyClaimedWorkersLose(w, pid, ok, s);
    }
  }

  lemma AdvanceWakesNobody(w: World, pid: nat, ok: bool, s: SessionId)
    requires Inv(w) && pid in w.processes
    ensures Live(Advanced(w, pid, ok).rows, s) ==> Live(w.rows, s)
  {
    AdvancedRows(w, pid, ok);
  }

  lemma CheckoutsStay(w: World, step: Step, s: SessionId)
    requires Inv(w) && !step.Advance?
    ensures w.rows.HasActive(s) ==> Do(w, step).rows.HasActive(s)
  {
    if w.rows.HasActive(s) {
      var p :| p in w.rows.pool && w.rows.pool[p].IsActive() && w.rows.pool[p].session == s;
      var pool := Do(w, step).rows.pool;
      assert p in pool && pool[p].IsActive() && pool[p].session == s;
    }
  }

  /** A session that a step makes live, or whose runtime it starts, has a checkout if it is bound to a lease. */
  lemma NewlyLiveAreProvided(w: World, step: Step, s: SessionId)
    requires Inv(w) && !step.Advance? && Enabled(w, step) && s in Do(w, step).rows.workers
    requires Live(Do(w, step).rows, s) || s in Do(w, step).rows.starting
    requires !(s in w.rows.workers && (Live(w.rows, s) || s in w.rows.starting)
               && w.rows.workers[s].lease == Do(w, step).rows.workers[s].lease)
    requires Do(w, step).rows.workers[s].lease.Some?
    ensures w.rows.HasActive(s)
  {
    if s in w.rows.workers && step.StartRuntime? {
      assert w.rows.KeepsLease(s);
    }
  }

  lemma StepKeepsProvided(w: World, step: Step)
    requires Inv(w) && Guarded(w) && Provided(w.rows)
    ensures Provided(Do(w, step).rows)
  {
    if Enabled(w, step) {
      if step.Advance? {
        AdvanceKeepsProvided(w, step.pid, step.ok);
      } else {
        var v := Do(w, step);
        forall s | s in v.rows.workers && (Live(v.rows, s) || s in v.rows.starting) && v.rows.workers[s].lease.Some?
          ensures v.rows.HasActive(s)
        {
          CheckoutsStay(w, step, s);
          if !(s in w.rows.workers && (Live(w.rows, s) || s in w.rows.starting)
               && w.rows.workers[s].lease == v.rows.workers[s].lease) {
            NewlyLiveAreProvided(w, step, s);
          }
        }
      }
    }
  }

  /** While every claim is made under the lock, live workers keep their checkouts. */
  lemma {:induction false} GuardedRunsProvide(w: World, steps: seq<Step>)
    requires Inv(w) && Guarded(w) && Provided(w.rows) && GuardedRun(w, steps)
    ensures Guarded(After(w, steps)) && Provided(After(w, steps).rows)
    decreases |steps|
  {
    if steps != [] {
      StepKeepsGuarded(w, steps[0]);
      StepKeepsProvided(w, steps[0]);
      StepKeepsInv(w, steps[0]);
      GuardedRunsProvide(Do(w, steps[0]), steps[1..]);
    }
  }

  /** From the start, in every run whose claims are all made under the lock: whatever step comes next, the checkout of a
      worker that is allocating or active stays with its session and lease, and unless it is re-filed with the
      worker. */
  lemma LiveWorkersKeepTheirCheckouts(steps: seq<Step>, next: Step, p: Path)
    requires (EmptyIsSound(); GuardedRun(EMPTY, steps))
    requires var rows := After(EMPTY, steps).rows;
             p in rows.pool && rows.pool[p].IsActive() && Live(rows, rows.pool[p].session)
    ensures var w := After(EMPTY, steps);
            var was := w.rows.pool[p];
            p in Do(w, next).rows.pool
            && var now := Do(w, next).rows.pool[p];
               now.IsActive() && now.session == was.session && now.lease == was.lease
               && (now.owner == was.owner || next.Refile?)
  {
    var w := After(EMPTY, steps);
    GuardedRunsProvide(EMPTY, steps);
    var was := w.rows.pool[p];
    if next.Advance? && next.pid in w.processes {
      assert Guards(w.rows, w.processes[next.pid]);
      assert Backed(w.rows, p);
    }
    if !next.Refile? {
      StepKeepsLease(w, next, p, was.session, was.owner, was.lease);
    }
  }

  // ---------------------------------------------------------------- and only then

  /** A run in which every claim is made under the lock leads from `w` to `v`. */
  ghost predicate Reaches(w: World, v: World)
    requires Inv(w)
  {
    exists steps :: GuardedRun(w, steps) && After(w, steps) == v
  }

  lemma StepReaches(w: World, step: Step)
    requires Inv(w) && ClaimsUnderLock(w, step)
    ensures Inv(Do(w, step)) && Reaches(w, Do(w, step))
  {
    StepKeepsInv(w, step);
    assert [step][0] == step && [step][1..] == [] && After(Do(w, step), []) == Do(w, step);
    assert After(w, [step]) == After(Do(w, step), []);
    assert GuardedRun(w, [step]) && After(w, [step]) == Do(w, step);
  }

  lemma {:induction false} GuardedConcat(w: World, xs: seq<Step>, ys: seq<Step>)
    requires Inv(w) && GuardedRun(w, xs) && GuardedRun(After(w, xs), ys)
    ensures GuardedRun(w, xs + ys)
    decreases |xs|
  {
    if xs == [] {
      assert xs + ys == ys;
    } else {
      StepKeepsInv(w, xs[0]);
      assert (xs + ys)[0] == xs[0] && (xs + ys)[1..] == xs[1..] + ys;
      GuardedConcat(Do(w, xs[0]), xs[1..], ys);
    }
  }

  lemma ReachesChain(u: World, v: World, w: World)
    requires Inv(u) && Inv(v) && Reaches(u, v) && Reaches(v, w)
    ensures Reaches(u, w)
  {
    var xs :| GuardedRun(u, xs) && After(u, xs) == v;
    var ys :| GuardedRun(v, ys) && After(v, ys) == w;
    GuardedConcat(u, xs, ys);
    AfterConcat(u, xs, ys);
  }

  /** Release `pid` has stopped the runtime under claim `c`, without the lock of checkout `p`, which the worker holds in
      state `state`. */
  predicate Exposed(w: World, pid: nat, s: SessionId, c: Worker, p: Path, state: WorkerState) {
    Inv(w) && DistinctLocks(w)
    && pid in w.processes
    && var q := w.processes[pid];
       q.session == s && q.phase == Stopped(c) && q.lock != Some(p) && !w.rows.Busy(s)
       && s in w.rows.workers && w.rows.workers[s] == c.(state := state)
       && p in w.rows.pool && w.rows.pool[p].HeldBy(s, c.incarnation, c.lease)
  }

  lemma {:induction false} SomePidIsFree(pids: set<nat>)
    ensures exists pid: nat :: pid !in pids
  {
    var bound := Above(pids);
    assert bound !in pids;
  }

  ghost function Above(pids: set<nat>): (b: nat)
    ensures forall pid :: pid in pids ==> pid < b
    decreases |pids|
  {
    if pids == {} then 0
    else
      var pid :| pid in pids;
      var rest := Above(pids - {pid});
      assert forall other :: other in pids ==> other == pid || other in pids - {pid};
      if pid < rest then rest else pid + 1
  }

  /** The lock can be free, and the directory back on disk. */
  lemma LockCanBeFree(w: World, pid: nat, s: SessionId, c: Worker, p: Path)
    requires Exposed(w, pid, s, c, p, ReleaseClaimed)
    ensures exists v :: Reaches(w, v) && Exposed(v, pid, s, c, p, ReleaseClaimed) && !Taken(v, p) && p in v.disk
  {
    var step := DiskIs(w.disk + {p});
    StepReaches(w, step);
    var v := Do(w, step);
    if Taken(v, p) {
      var holder :| holder in v.processes && v.processes[holder].lock == Some(p);
      StepReaches(v, Crash(holder));
      var u := Do(v, Crash(holder));
      ReachesChain(w, v, u);
      assert Exposed(u, pid, s, c, p, ReleaseClaimed) && !Taken(u, p);
    }
  }

  /** A second release, under the lock, takes over the claim. */
  lemma SecondReleaseClaims(w: World, pid: nat, s: SessionId, c: Worker, p: Path, other: nat)
    requires Exposed(w, pid, s, c, p, ReleaseClaimed) && !Taken(w, p) && p in w.disk && other !in w.processes
    ensures var v := w.(processes := w.processes[other := Process(s, Some(p), Claimed(c))]);
            Reaches(w, v) && Exposed(v, pid, s, c, p, ReleaseClaimed)
  {
    assert ActivePath(w.rows, s) == Some(p);
    StepReaches(w, Begin(other, s));
    var u := Do(w, Begin(other, s));
    assert u == w.(processes := w.processes[other := Process(s, None, Waiting(Some(p)))]);
    assert !Taken(u, p);
    StepReaches(u, Advance(other, true));
    var t := Do(u, Advance(other, true));
    assert t == w.(processes := w.processes[other := Process(s, Some(p), Begun)]);
    ReachesChain(w, u, t);
    assert Covers(t.rows, s, Some(p));
    StepReaches(t, Advance(other, true));
    var v := Do(t, Advance(other, true));
    assert v == w.(processes := w.processes[other := Process(s, Some(p), Claimed(c))]);
    ReachesChain(w, t, v);
  }

  lemma ClaimIsGivenUp(w: World, pid: nat, s: SessionId, c: Worker, p: Path, other: nat)
    requires Exposed(w, pid, s, c, p, ReleaseClaimed) && other != pid && other in w.processes
    requires w.processes[other].session == s && w.processes[other].phase == Claimed(c)
    ensures exists v :: Reaches(w, v) && Exposed(v, pid, s, c, p, Retained)
  {
    StepReaches(w, Advance(other, false));
    var u := Do(w, Advance(other, false));
    assert Exposed(u, pid, s, c, p, Retained);
  }

  lemma WorkerIsStarted(w: World, pid: nat, s: SessionId, c: Worker, p: Path)
    requires Exposed(w, pid, s, c, p, Retained)
    ensures exists v :: Reaches(w, v) && Exposed(v, pid, s, c, p, Active)
  {
    assert CanStart(w.rows, s);
    StepReaches(w, StartRuntime(s));
    var u := Do(w, StartRuntime(s));
    StepReaches(u, EndRuntime(s, true));
    var v := Do(u, EndRuntime(s, true));
    ReachesChain(w, u, v);
    assert v.rows.workers[s] == c.(state := Active);
    assert Exposed(v, pid, s, c, p, Active);
  }

  lemma CheckoutIsFound(w: World, pid: nat, s: SessionId, c: Worker, p: Path)
    requires Exposed(w, pid, s, c, p, Active)
    ensures var v := w.(processes := w.processes[pid := w.processes[pid].(phase := Found(c, p))]);
            Inv(v) && Reaches(w, v)
  {
    assert ActivePath(w.rows, s) == Some(p);
    StepReaches(w, Advance(pid, true));
    assert Do(w, Advance(pid, true)) == Move(w, pid, Found(c, p));
  }

  /** Then the first release finds the directory gone and removes the record. */
  lemma CheckoutIsTaken(w: World, pid: nat, s: SessionId, c: Worker, p: Path)
    requires Exposed(w, pid, s, c, p, Active)
    ensures exists v :: Inv(v) && Reaches(w, v) && Deprived(v.rows, s)
  {
    assert Backed(w.rows, p);
    CheckoutIsFound(w, pid, s, c, p);
    var u := Move(w, pid, Found(c, p));
    StepReaches(u, DiskIs({}));
    var t := Do(u, DiskIs({}));
    ReachesChain(w, u, t);
    RecordIsRemoved(t, pid, s, c, p);
    var v :| Inv(v) && Reaches(t, v) && Deprived(v.rows, s);
    ReachesChain(w, t, v);
  }

  lemma RecordIsRemoved(w: World, pid: nat, s: SessionId, c: Worker, p: Path)
    requires Inv(w) && pid in w.processes && w.processes[pid].phase == Found(c, p) && w.disk == {}
    requires w.processes[pid].session == s
    requires s in w.rows.workers && w.rows.workers[s] == c.(state := Active) && c.lease.Some?
             && p in w.rows.pool && w.rows.pool[p].HeldBy(s, c.incarnation, c.lease)
    ensures exists v :: Inv(v) && Reaches(w, v) && Deprived(v.rows, s)
  {
    StepReaches(w, Advance(pid, true));
    var u := Do(w, Advance(pid, true));
    assert u.rows == w.rows && u.processes[pid].phase == Missing(c, p) && u.processes[pid].session == s;
    StepReaches(u, Advance(pid, true));
    var v := Do(u, Advance(pid, true));
    ReachesChain(w, u, v);
    assert v.rows == RemoveSlot(w.rows, p, s, c.incarnation, c.lease);
    assert !v.rows.HasActive(s);
  }

  lemma ExposedWorkersCanLose(w: World, pid: nat, s: SessionId, c: Worker, p: Path)
    requires Exposed(w, pid, s, c, p, ReleaseClaimed)
    ensures exists v :: Inv(v) && Reaches(w, v) && Deprived(v.rows, s)
  {
    LockCanBeFree(w, pid, s, c, p);
    var w1 :| Reaches(w, w1) && Exposed(w1, pid, s, c, p, ReleaseClaimed) && !Taken(w1, p) && p in w1.disk;
    SomePidIsFree(w1.processes.Keys);
    var other: nat :| other !in w1.processes.Keys;
    SecondReleaseClaims(w1, pid, s, c, p, other);
    var w2 := w1.(processes := w1.processes[other := Process(s, Some(p), Claimed(c))]);
    ClaimIsGivenUp(w2, pid, s, c, p, other);
    var w3 :| Reaches(w2, w3) && Exposed(w3, pid, s, c, p, Retained);
    WorkerIsStarted(w3, pid, s, c, p);
    var w4 :| Reaches(w3, w4) && Exposed(w4, pid, s, c, p, Active);
    CheckoutIsTaken(w4, pid, s, c, p);
    var v :| Inv(v) && Reaches(w4, v) && Deprived(v.rows, s);
    ReachesChain(w3, w4, v);
    ReachesChain(w2, w3, v);
    ReachesChain(w1, w2, v);
    ReachesChain(w, w1, v);
  }

  /** The world once release `pid` has stopped the runtime and no finalization is under way. */
  predicate StoppedIn(u: World, t: World, pid: nat, s: SessionId, c: Worker) {
    pid in u.processes && t.rows == u.rows.(finalizing := u.rows.finalizing - {s})
    && t.processes == u.processes[pid := u.processes[pid].(phase := Stopped(c))]
  }

  lemma RuntimeIsStopped(u: World, pid: nat, s: SessionId, c: Worker)
    requires Inv(u) && DistinctLocks(u) && pid in u.processes && u.processes[pid].phase == Claimed(c)
    ensures exists t :: Reaches(u, t) && Inv(t) && DistinctLocks(t) && StoppedIn(u, t, pid, s, c)
  {
    StepReaches(u, Finalize(s, false));
    var v := Do(u, Finalize(s, false));
    StepReaches(v, Advance(pid, true));
    var t := Do(v, Advance(pid, true));
    AdvanceKeepsLocksDistinct(v, pid, true);
    ReachesChain(u, v, t);
    assert StoppedIn(u, t, pid, s, c);
  }

  lemma UnguardedClaimsCanLose(w: World, pid: nat)
    requires Inv(w) && DistinctLocks(w) && pid in w.processes && !ClaimsUnderLock(w, Advance(pid, true))
    ensures Inv(Do(w, Advance(pid, true)))
    ensures exists v :: Inv(v) && Reaches(Do(w, Advance(pid, true)), v) && Deprived(v.rows, w.processes[pid].session)
  {
    var s := w.processes[pid].session;
    var u := Do(w, Advance(pid, true));
    StepKeepsInv(w, Advance(pid, true));
    var p :| p in w.rows.pool && w.rows.pool[p].IsActive() && w.rows.pool[p].session == s
             && w.processes[pid].lock != Some(p);
    assert Backed(w.rows, p);
    AdvanceKeepsLocksDistinct(w, pid, true);
    AdvancedRows(w, pid, true);
    var c := ClaimOf(w.rows, s).value;
    RuntimeIsStopped(u, pid, s, c);
    var t :| Reaches(u, t) && Inv(t) && DistinctLocks(t) && StoppedIn(u, t, pid, s, c);
    assert Exposed(t, pid, s, c, p, ReleaseClaimed);
    ExposedWorkersCanLose(t, pid, s, c, p);
    var v :| Inv(v) && Reaches(t, v) && Deprived(v.rows, w.processes[pid].session);
    ReachesChain(u, t, v);
  }

  /** The lock is what it takes, and no more: a release that claims a worker leaves all live workers their checkouts,
      whatever follows under the lock, if and only if it holds the lock of that worker's checkout. */
  lemma ClaimsAreSafeExactly(w: World, pid: nat)
    requires Inv(w) && Guarded(w) && Provided(w.rows)
    requires pid in w.processes && w.processes[pid].phase.Begun? && ClaimOf(w.rows, w.processes[pid].session).Some?
    ensures Inv(Do(w, Advance(pid, true)))
    ensures (forall v :: Reaches(Do(w, Advance(pid, true)), v) && Inv(v) ==> Provided(v.rows))
       <==> ClaimsUnderLock(w, Advance(pid, true))
  {
    var step := Advance(pid, true);
    var u := Do(w, step);
    StepKeepsInv(w, step);
    if ClaimsUnderLock(w, step) {
      StepKeepsGuarded(w, step);
      StepKeepsProvided(w, step);
      forall v | Reaches(u, v) && Inv(v) ensures Provided(v.rows) {
        var steps :| GuardedRun(u, steps) && After(u, steps) == v;
        GuardedRunsProvide(u, steps);
      }
    } else {
      UnguardedClaimsCanLose(w, pid);
      var v :| Inv(v) && Reaches(u, v) && Deprived(v.rows, w.processes[pid].session);
      assert !Provided(v.rows);
    }
  }
}
