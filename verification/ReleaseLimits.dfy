/** How far the promises of a release reach: exactly which claims always settle, and exactly where a release may
    begin. */
module ReleaseLimits {
  import opened NinoxTypes
  import opened ReleaseStore
  import opened ReleaseProtocol
  import opened ReleaseLock
  import opened ReleaseOutcomes
  import opened ReleaseRuns

  // ---------------------------------------------------------------- what happens beside a release

  predicate LeavesAlone(step: Step, pid: nat) {
    !(step.Advance? && step.pid == pid) && step != Crash(pid)
  }

  predicate AllLeaveAlone(steps: seq<Step>, pid: nat) {
    forall k :: 0 <= k < |steps| ==> LeavesAlone(steps[k], pid)
  }

  /** A run whose claims are all made under the lock leads from `w` to `v` and has no step of release `pid`. */
  ghost predicate Beside(w: World, v: World, pid: nat)
    requires Inv(w)
  {
    exists steps :: GuardedRun(w, steps) && After(w, steps) == v && AllLeaveAlone(steps, pid)
  }

  lemma StepBeside(w: World, step: Step, pid: nat)
    requires Inv(w) && ClaimsUnderLock(w, step) && LeavesAlone(step, pid)
    ensures Inv(Do(w, step)) && Beside(w, Do(w, step), pid)
    ensures pid in w.processes ==> pid in Do(w, step).processes && Do(w, step).processes[pid] == w.processes[pid]
  {
    StepKeepsInv(w, step);
    assert [step][0] == step && [step][1..] == [] && After(Do(w, step), []) == Do(w, step);
    assert After(w, [step]) == After(Do(w, step), []);
    assert GuardedRun(w, [step]) && After(w, [step]) == Do(w, step);
    if pid in w.processes {
      OtherStepsKeepProcess(w, step, pid);
    }
  }

  lemma BesideItself(w: World, pid: nat)
    requires Inv(w)
    ensures Beside(w, w, pid)
  {
    assert GuardedRun(w, []) && After(w, []) == w;
  }

  lemma BesideChain(u: World, v: World, w: World, pid: nat)
    requires Inv(u) && Inv(v) && Beside(u, v, pid) && Beside(v, w, pid)
    ensures Beside(u, w, pid)
  {
    var xs :| GuardedRun(u, xs) && After(u, xs) == v && AllLeaveAlone(xs, pid);
    var ys :| GuardedRun(v, ys) && After(v, ys) == w && AllLeaveAlone(ys, pid);
    GuardedConcat(u, xs, ys);
    AfterConcat(u, xs, ys);
    assert AllLeaveAlone(xs + ys, pid);
  }

  /** What happens beside a release leaves it as it is. */
  lemma {:induction false} RunLeavesAlone(w: World, steps: seq<Step>, pid: nat)
    requires Inv(w) && pid in w.processes && AllLeaveAlone(steps, pid)
    ensures pid in After(w, steps).processes && After(w, steps).processes[pid] == w.processes[pid]
    decreases |steps|
  {
    if steps != [] {
      assert LeavesAlone(steps[0], pid);
      OtherStepsKeepProcess(w, steps[0], pid);
      StepKeepsInv(w, steps[0]);
      RunLeavesAlone(Do(w, steps[0]), steps[1..], pid);
    }
  }

  lemma BesideKeeps(w: World, v: World, pid: nat)
    requires Inv(w) && Beside(w, v, pid)
    ensures Inv(v)
    ensures pid in w.processes ==> pid in v.processes && v.processes[pid] == w.processes[pid]
    ensures Guarded(w) && Provided(w.rows) ==> Guarded(v) && Provided(v.rows)
  {
    var steps :| GuardedRun(w, steps) && After(w, steps) == v && AllLeaveAlone(steps, pid);
    if pid in w.processes {
      RunLeavesAlone(w, steps, pid);
    }
    if Guarded(w) && Provided(w.rows) {
      GuardedRunsProvide(w, steps);
    }
  }

  // ---------------------------------------------------------------- a worker without a lease can be re-filed

  /** The worker is bound to no lease, and so holds no checkout. */
  predicate Unpooled(rows: Rows, s: SessionId) {
    s in rows.workers && rows.workers[s].lease.None? && !rows.workers[s].state.Allocating?
  }

  lemma UnpooledHoldNothing(w: World, s: SessionId)
    requires Inv(w) && Unpooled(w.rows, s)
    ensures !w.rows.HasActive(s)
  {
    forall p | p in w.rows.pool ensures !(w.rows.pool[p].IsActive() && w.rows.pool[p].session == s) {
      assert Backed(w.rows, p);
    }
  }

  /** A second release finds no directory and takes no lock. */
  lemma SecondReleaseBegins(w: World, pid: nat, s: SessionId, other: nat)
    requires Inv(w) && s in w.rows.workers && w.disk == {} && other !in w.processes && other != pid
    ensures var v := w.(processes := w.processes[other := Process(s, None, Begun)]); Inv(v) && Beside(w, v, pid)
  {
    assert LockFor(w.rows, w.disk, s) == None;
    StepBeside(w, Begin(other, s), pid);
    var waiting := w.(processes := w.processes[other := Process(s, None, Waiting(None))]);
    assert Do(w, Begin(other, s)) == waiting;
    StepBeside(waiting, Advance(other, true), pid);
    var begun := w.(processes := w.processes[other := Process(s, None, Begun)]);
    assert Do(waiting, Advance(other, true)) == begun;
    BesideChain(w, waiting, begun, pid);
  }

  /** It takes the claim over, cannot stop the runtime and gives up. */
  lemma ClaimIsAborted(w: World, pid: nat, s: SessionId)
    requires Inv(w) && pid in w.processes && Unpooled(w.rows, s) && w.rows.workers[s].state.ReleaseClaimed?
    ensures var v := w.(disk := {}, rows := SetState(w.rows, s, Retained)); Inv(v) && Beside(w, v, pid)
  {
    SomePidIsFree(w.processes.Keys);
    var other: nat :| other !in w.processes.Keys;
    StepBeside(w, DiskIs({}), pid);
    var u := w.(disk := {});
    assert Do(w, DiskIs({})) == u;
    SecondReleaseBegins(u, pid, s, other);
    var begun := u.(processes := u.processes[other := Process(s, None, Begun)]);
    BesideChain(w, u, begun, pid);
    TakenOverAndAborted(begun, pid, s, other);
    var v := u.(rows := SetState(w.rows, s, Retained));
    assert begun.processes - {other} == w.processes;
    BesideChain(w, begun, v, pid);
  }

  lemma TakenOverAndAborted(w: World, pid: nat, s: SessionId, other: nat)
    requires Inv(w) && other in w.processes && other != pid && w.processes[other] == Process(s, None, Begun)
    requires Unpooled(w.rows, s) && w.rows.workers[s].state.ReleaseClaimed?
    ensures var v := w.(rows := SetState(w.rows, s, Retained), processes := w.processes - {other});
            Inv(v) && Beside(w, v, pid)
  {
    UnpooledHoldNothing(w, s);
    var c := w.rows.workers[s];
    assert s !in w.rows.starting && ClaimOf(w.rows, s) == Some(c);
    StepBeside(w, Advance(other, true), pid);
    var u := Move(w, other, Claimed(c));
    assert Do(w, Advance(other, true)) == u;
    StepBeside(u, Advance(other, false), pid);
    var v := w.(rows := SetState(w.rows, s, Retained), processes := w.processes - {other});
    assert u.processes - {other} == w.processes - {other};
    assert Do(u, Advance(other, false)) == v;
    BesideChain(w, u, v, pid);
  }

  /** No runtime start and no finalization is under way for the session any more. */
  function Idle(w: World, s: SessionId): World {
    w.(rows := w.rows.(starting := w.rows.starting - {s}, finalizing := w.rows.finalizing - {s}))
  }

  lemma BecomesIdle(w: World, pid: nat, s: SessionId)
    requires Inv(w)
    ensures Inv(Idle(w, s)) && Beside(w, Idle(w, s), pid)
  {
    var u := w;
    BesideItself(w, pid);
    if s in w.rows.starting {
      StepBeside(w, EndRuntime(s, false), pid);
      u := Do(w, EndRuntime(s, false));
    }
    assert u.rows == w.rows.(starting := w.rows.starting - {s});
    StepBeside(u, Finalize(s, false), pid);
    assert Do(u, Finalize(s, false)) == Idle(w, s);
    BesideChain(w, u, Idle(w, s), pid);
  }

  /** The worker gets a new incarnation, never given out before. */
  lemma UnpooledCanBeRefiled(w: World, pid: nat, s: SessionId)
    requires Inv(w) && pid in w.processes && Unpooled(w.rows, s)
    ensures exists v :: Inv(v) && Beside(w, v, pid) && InState(v.rows, s, Allocating) && !v.rows.HasActive(s)
                        && v.rows.workers[s].incarnation !in w.issued
  {
    var u := w;
    BesideItself(w, pid);
    if w.rows.workers[s].state.ReleaseClaimed? {
      ClaimIsAborted(w, pid, s);
      u := w.(disk := {}, rows := SetState(w.rows, s, Retained));
    }
    BecomesIdle(u, pid, s);
    BesideChain(w, u, Idle(u, s), pid);
    IdleIsRefiled(Idle(u, s), pid, s);
    var v :| Inv(v) && Beside(Idle(u, s), v, pid) && InState(v.rows, s, Allocating) && !v.rows.HasActive(s)
             && v.rows.workers[s].incarnation !in w.issued;
    BesideChain(w, Idle(u, s), v, pid);
  }

  lemma IdleIsRefiled(w: World, pid: nat, s: SessionId)
    requires Inv(w) && Unpooled(w.rows, s) && !w.rows.Busy(s) && !w.rows.workers[s].state.ReleaseClaimed?
    ensures exists v :: Inv(v) && Beside(w, v, pid) && InState(v.rows, s, Allocating) && !v.rows.HasActive(s)
                        && v.rows.workers[s].incarnation !in w.issued
  {
    UnpooledHoldNothing(w, s);
    assert LeaseToCarry(w.rows, s) == None;
    SomePidIsFree(w.issued.Keys);
    var i: Id :| i !in w.issued.Keys;
    StepBeside(w, Refile(s, i, ""), pid);
    var v := Do(w, Refile(s, i, ""));
    assert !v.rows.HasActive(s);
  }

  // ---------------------------------------------------------------- exactly the claims that settle

  /** However it goes on, as long as claims are made under the lock: when the release ends, its worker is released, or
      retained again. */
  ghost predicate AlwaysSettles(w: World, pid: nat)
    requires Inv(w) && pid in w.processes && w.processes[pid].phase.HasClaim()
  {
    forall run :: GuardedRun(w, run) && Ends(w, run, pid) ==>
      IsSettled(After(w, run).rows, w.processes[pid].session, w.processes[pid].phase.claim.incarnation)
  }

  /** Some way to end leaves incarnation `i` of `s` neither released nor retained. */
  ghost predicate CanEndUnsettled(w: World, pid: nat, s: SessionId, i: Id)
    requires Inv(w)
  {
    exists run :: GuardedRun(w, run) && Ends(w, run, pid) && !IsSettled(After(w, run).rows, s, i)
  }

  predicate IsPast(rows: Rows, s: SessionId, i: Id) {
    s in rows.workers ==> rows.workers[s].incarnation != i
  }

  /** A release under a claim on a past incarnation can only end unsettled. */
  lemma {:induction false} PastClaimsEndUnsettled(w: World, pid: nat, i: Id)
    requires Inv(w) && pid in w.processes && w.processes[pid].phase.HasClaim()
    requires IsPast(w.rows, w.processes[pid].session, i)
    ensures CanEndUnsettled(w, pid, w.processes[pid].session, i)
    decreases Remaining(w.processes[pid].phase)
  {
    var s, step := w.processes[pid].session, Advance(pid, true);
    var v := Do(w, step);
    StepKeepsInv(w, step);
    AdvanceProgresses(w, pid, true);
    AdvanceKeepsIncarnations(w, pid, true, s);
    if pid in v.processes {
      PastClaimsEndUnsettled(v, pid, i);
      var run :| GuardedRun(v, run) && Ends(v, run, pid) && !IsSettled(After(v, run).rows, s, i);
      assert ([step] + run)[0] == step && ([step] + run)[1..] == run;
      assert GuardedRun(w, [step] + run) && Ends(w, [step] + run, pid);
    } else {
      assert [step][0] == step && [step][1..] == [] && After(v, []) == v;
      assert After(w, [step]) == v;
      assert GuardedRun(w, [step]) && Ends(w, [step], pid);
    }
  }

  lemma {:induction false} EndsConcat(w: World, steps: seq<Step>, run: seq<Step>, pid: nat)
    requires Inv(w) && pid in w.processes && AllLeaveAlone(steps, pid) && Ends(After(w, steps), run, pid)
    ensures Ends(w, steps + run, pid)
    decreases |steps|
  {
    if steps == [] {
      assert steps + run == run;
    } else {
      assert LeavesAlone(steps[0], pid);
      OtherStepsKeepProcess(w, steps[0], pid);
      StepKeepsInv(w, steps[0]);
      assert (steps + run)[0] == steps[0] && (steps + run)[1..] == steps[1..] + run;
      EndsConcat(Do(w, steps[0]), steps[1..], run, pid);
    }
  }

  lemma BesideCanEndUnsettled(w: World, v: World, pid: nat, s: SessionId, i: Id)
    requires Inv(w) && pid in w.processes && Beside(w, v, pid) && Inv(v) && CanEndUnsettled(v, pid, s, i)
    ensures CanEndUnsettled(w, pid, s, i)
  {
    var steps :| GuardedRun(w, steps) && After(w, steps) == v && AllLeaveAlone(steps, pid);
    var run :| GuardedRun(v, run) && Ends(v, run, pid) && !IsSettled(After(v, run).rows, s, i);
    GuardedConcat(w, steps, run);
    AfterConcat(w, steps, run);
    EndsConcat(w, steps, run, pid);
  }

  lemma UnpooledClaimsCanEndUnsettled(w: World, pid: nat)
    requires Inv(w) && pid in w.processes && IsCurrent(w.rows, w.processes[pid])
             && w.processes[pid].phase.claim.lease.None?
    ensures CanEndUnsettled(w, pid, w.processes[pid].session, w.processes[pid].phase.claim.incarnation)
  {
    var (q, s, i) := (w.processes[pid], w.processes[pid].session, w.processes[pid].phase.claim.incarnation);
    assert Sound(w, q);
    UnpooledCanBeRefiled(w, pid, s);
    var v :| Inv(v) && Beside(w, v, pid) && InState(v.rows, s, Allocating) && !v.rows.HasActive(s)
             && v.rows.workers[s].incarnation !in w.issued;
    BesideKeeps(w, v, pid);
    PastClaimsEndUnsettled(v, pid, i);
    BesideCanEndUnsettled(w, v, pid, s, i);
  }

  /** In every future whose claims are made under the lock a release leaves its worker released or retained, if and only
      if the worker it claimed is bound to a lease and still current. */
  lemma SettlesExactly(w: World, pid: nat)
    requires Inv(w) && Guarded(w) && Provided(w.rows)
    requires pid in w.processes && w.processes[pid].phase.HasClaim()
    ensures AlwaysSettles(w, pid)
       <==> IsCurrent(w.rows, w.processes[pid]) && w.processes[pid].phase.claim.lease.Some?
  {
    var (q, s, i) := (w.processes[pid], w.processes[pid].session, w.processes[pid].phase.claim.incarnation);
    if KeptUnderLock(w, q) {
      forall run | GuardedRun(w, run) && Ends(w, run, pid) ensures IsSettled(After(w, run).rows, s, i) {
        KeptSettles(w, run, pid);
      }
    } else {
      if IsCurrent(w.rows, q) {
        UnpooledClaimsCanEndUnsettled(w, pid);
      } else {
        PastClaimsEndUnsettled(w, pid, i);
      }
      var run :| GuardedRun(w, run) && Ends(w, run, pid) && !IsSettled(After(w, run).rows, s, i);
    }
  }

  // ---------------------------------------------------------------- a release that another one overtakes

  /** From the start, `steps`, whose claims are all made under the lock, lead to `v`. */
  predicate GuardedTo(steps: seq<Step>, v: World) {
    LeadsTo(steps, v) && (EmptyIsSound(); GuardedRun(EMPTY, steps))
  }

  lemma OneMoreGuarded(steps: seq<Step>, u: World, step: Step)
    requires GuardedTo(steps, u) && ClaimsUnderLock(u, step)
    ensures Inv(u) && GuardedTo(steps + [step], Do(u, step))
  {
    OneMore(steps, u, step);
    StepKeepsInv(u, step);
    assert [step][0] == step && [step][1..] == [];
    assert GuardedRun(u, [step]);
    GuardedConcat(EMPTY, steps, [step]);
  }

  /** One worker that no checkout was reserved for. */
  function Hosted(s: SessionId, p: Path, state: WorkerState, processes: map<nat, Process>): World {
    World(Rows(map[s := Worker(0, None, p, state)], map[], map[], {}), {}, processes, map[0 := s])
  }

  lemma HostedRuns(s: SessionId, p: Path)
    requires s != ""
    ensures GuardedTo([Refile(s, 0, p), Bind(s, p), Retain(s)], Hosted(s, p, Retained, map[]))
  {
    assert GuardedTo([], EMPTY);
    OneMoreGuarded([], EMPTY, Refile(s, 0, p));
    assert [] + [Refile(s, 0, p)] == [Refile(s, 0, p)];
    assert Do(EMPTY, Refile(s, 0, p)) == Hosted(s, p, Allocating, map[]);
    OneMoreGuarded([Refile(s, 0, p)], Hosted(s, p, Allocating, map[]), Bind(s, p));
    assert Do(Hosted(s, p, Allocating, map[]), Bind(s, p)) == Hosted(s, p, Active, map[]);
    OneMoreGuarded([Refile(s, 0, p)] + [Bind(s, p)], Hosted(s, p, Active, map[]), Retain(s));
    assert Do(Hosted(s, p, Active, map[]), Retain(s)) == Hosted(s, p, Retained, map[]);
    assert [Refile(s, 0, p)] + [Bind(s, p)] + [Retain(s)] == [Refile(s, 0, p), Bind(s, p), Retain(s)];
  }

  /** A release of that worker takes no lock, and claims the worker or takes the claim over. */
  lemma HostedClaims(steps: seq<Step>, s: SessionId, p: Path, state: WorkerState, processes: map<nat, Process>,
                     pid: nat)
    requires GuardedTo(steps, Hosted(s, p, state, processes)) && pid !in processes
    requires state.Retained? || state.ReleaseClaimed?
    ensures GuardedTo(steps + [Begin(pid, s), Advance(pid, true), Advance(pid, true)],
                      Hosted(s, p, ReleaseClaimed,
                             processes[pid := Process(s, None, Claimed(Worker(0, None, p, ReleaseClaimed)))]))
  {
    var w := Hosted(s, p, state, processes);
    var go := Advance(pid, true);
    OneMoreGuarded(steps, w, Begin(pid, s));
    assert Do(w, Begin(pid, s)) == Hosted(s, p, state, processes[pid := Process(s, None, Waiting(None))]);
    OneMoreGuarded(steps + [Begin(pid, s)], Do(w, Begin(pid, s)), go);
    var u := Hosted(s, p, state, processes[pid := Process(s, None, Begun)]);
    assert Do(Do(w, Begin(pid, s)), go) == u;
    assert ClaimOf(u.rows, s) == Some(Worker(0, None, p, ReleaseClaimed));
    OneMoreGuarded(steps + [Begin(pid, s)] + [go], u, go);
    assert Do(u, go).rows == Hosted(s, p, ReleaseClaimed, map[]).rows;
    assert steps + [Begin(pid, s)] + [go] + [go] == steps + [Begin(pid, s), go, go];
  }

  /** The same worker on its second incarnation. */
  function Overtaken(s: SessionId, p: Path, processes: map<nat, Process>): World {
    World(Rows(map[s := Worker(1, None, p, Allocating)], map[], map[], {}), {}, processes, map[0 := s, 1 := s])
  }

  /** The second release gives up, and the worker is re-filed under the first. */
  lemma OvertakingRuns(steps: seq<Step>, s: SessionId, p: Path, first: Process, second: Process)
    requires GuardedTo(steps, Hosted(s, p, ReleaseClaimed, map[0 := first, 1 := second]))
    requires second == Process(s, None, Claimed(Worker(0, None, p, ReleaseClaimed))) && s != ""
    ensures GuardedTo(steps + [Advance(1, false), Refile(s, 1, p)], Overtaken(s, p, map[0 := first]))
  {
    var w := Hosted(s, p, ReleaseClaimed, map[0 := first, 1 := second]);
    OneMoreGuarded(steps, w, Advance(1, false));
    var u := Hosted(s, p, Retained, map[0 := first]);
    assert w.processes - {1} == u.processes;
    assert Do(w, Advance(1, false)) == u;
    OneMoreGuarded(steps + [Advance(1, false)], u, Refile(s, 1, p));
    assert LeaseToCarry(u.rows, s) == None && Reowned(u.rows.pool, s, 0, None, 1) == map[];
    assert Do(u, Refile(s, 1, p)) == Overtaken(s, p, map[0 := first]);
    assert steps + [Advance(1, false)] + [Refile(s, 1, p)] == steps + [Advance(1, false), Refile(s, 1, p)];
  }

  /** The first release comes to its end. */
  lemma OvertakenRuns(steps: seq<Step>, s: SessionId, p: Path)
    requires GuardedTo(steps, Overtaken(s, p, map[0 := Process(s, None, Claimed(Worker(0, None, p, ReleaseClaimed)))]))
    ensures var go := Advance(0, true); GuardedTo(steps + [go, go, go, go], Overtaken(s, p, map[]))
  {
    var (c, go) := (Worker(0, None, p, ReleaseClaimed), Advance(0, true));
    var w0 := Overtaken(s, p, map[0 := Process(s, None, Claimed(c))]);
    var w1 := Overtaken(s, p, map[0 := Process(s, None, Stopped(c))]);
    OneMoreGuarded(steps, w0, go);
    assert Do(w0, go) == w1;
    OneMoreGuarded(steps + [go], w1, go);
    var w2 := Overtaken(s, p, map[0 := Process(s, None, NotHeld(c))]);
    assert Do(w1, go) == w2;
    OneMoreGuarded(steps + [go] + [go], w2, go);
    var w3 := Overtaken(s, p, map[0 := Process(s, None, Settling(c, true))]);
    assert Do(w2, go) == w3;
    OneMoreGuarded(steps + [go] + [go] + [go], w3, go);
    assert w3.processes - {0} == map[];
    assert Do(w3, go) == Overtaken(s, p, map[]);
    assert steps + [go] + [go] + [go] + [go] == steps + [go, go, go, go];
  }

  /** From the start, for every worker without a pooled checkout: a second release takes the claim of the first over and
      gives up, the worker is re-filed, and the first, which never crashes, ends with the incarnation that it claimed
      neither released nor retained. */
  lemma OvertakenReleaseSettlesNothing(s: SessionId, p: Path)
    requires s != ""
    ensures var (go, too) := (Advance(0, true), Advance(1, true));
            GuardedTo([Refile(s, 0, p), Bind(s, p), Retain(s)] + [Begin(0, s), go, go] + [Begin(1, s), too, too]
                        + [Advance(1, false), Refile(s, 1, p)] + [go, go, go, go], Overtaken(s, p, map[]))
    ensures !IsSettled(Overtaken(s, p, map[]).rows, s, 0)
  {
    var (go, too, c) := (Advance(0, true), Advance(1, true), Worker(0, None, p, ReleaseClaimed));
    var hosted := [Refile(s, 0, p), Bind(s, p), Retain(s)];
    HostedRuns(s, p);
    HostedClaims(hosted, s, p, Retained, map[], 0);
    var first := hosted + [Begin(0, s), go, go];
    var q := Process(s, None, Claimed(c));
    HostedClaims(first, s, p, ReleaseClaimed, map[0 := q], 1);
    var second := first + [Begin(1, s), too, too];
    assert map[0 := q][1 := q] == map[0 := q, 1 := q];
    OvertakingRuns(second, s, p, q, q);
    OvertakenRuns(second + [Advance(1, false), Refile(s, 1, p)], s, p);
  }

  // ---------------------------------------------------------------- exactly where a release may begin

  /** Every claim is made under the lock, except perhaps that of release `pid` while it is in flight. */
  predicate GuardedBut(w: World, steps: seq<Step>, pid: nat)
    requires Inv(w)
    decreases |steps|
  {
    steps == []
    || (((steps[0].Advance? && steps[0].pid == pid) || ClaimsUnderLock(w, steps[0]))
        && (StepKeepsInv(w, steps[0]);
            if pid in Do(w, steps[0]).processes then GuardedBut(Do(w, steps[0]), steps[1..], pid)
            else GuardedRun(Do(w, steps[0]), steps[1..])))
  }

  /** However it goes on, if all other claims are made under the lock live workers keep their checkouts. */
  ghost predicate LeavesWorkersProvided(w: World, pid: nat)
    requires Inv(w)
  {
    forall steps :: GuardedBut(w, steps, pid) ==> Provided(After(w, steps).rows)
  }

  ghost predicate CanDeprive(w: World, pid: nat, s: SessionId)
    requires Inv(w)
  {
    exists steps :: GuardedBut(w, steps, pid) && Deprived(After(w, steps).rows, s)
  }

  /** The release has the lock it needs, or waits for it. */
  predicate ReadyIn(w: World, pid: nat) {
    pid in w.processes
    && Ready(w.rows, w.processes[pid]) && (w.processes[pid].phase.Waiting? ==> w.processes[pid].lock == None)
  }

  lemma WaiterStays(w: World, pid: nat, ok: bool)
    requires Inv(w) && pid in w.processes && pid in Advanced(w, pid, ok).processes
    requires w.processes[pid].phase.Waiting? ==> w.processes[pid].lock == None
    ensures var q := Advanced(w, pid, ok).processes[pid]; q.phase.Waiting? ==> q.lock == None
  {
  }

  lemma StepKeepsReadyIn(w: World, step: Step, pid: nat)
    requires Inv(w) && Guarded(w) && ReadyIn(w, pid) && pid in Do(w, step).processes
    ensures ReadyIn(Do(w, step), pid)
  {
    if step.Advance? && step.pid == pid {
      AdvanceKeepsReady(w, pid, step.ok, w.processes[pid]);
      LockingKeepsReady(w, pid, step.ok);
      WaiterStays(w, pid, step.ok);
    } else if step != Crash(pid) {
      OtherStepsKeepProcess(w, step, pid);
      if step.Advance? {
        if step.pid in w.processes {
          AdvanceKeepsReady(w, step.pid, step.ok, w.processes[pid]);
        }
      } else {
        OthersKeepReady(w, step, w.processes[pid]);
      }
    }
  }

  lemma ReadyReleaseClaimsUnderLock(w: World, pid: nat, ok: bool)
    requires Inv(w) && ReadyIn(w, pid)
    ensures ClaimsUnderLock(w, Advance(pid, ok))
  {
  }

  lemma {:induction false} ReadyReleaseLeavesProvided(w: World, steps: seq<Step>, pid: nat)
    requires Inv(w) && Guarded(w) && Provided(w.rows) && ReadyIn(w, pid) && GuardedBut(w, steps, pid)
    ensures Provided(After(w, steps).rows)
    decreases |steps|
  {
    if steps != [] {
      if steps[0].Advance? && steps[0].pid == pid {
        ReadyReleaseClaimsUnderLock(w, pid, steps[0].ok);
      }
      StepKeepsGuarded(w, steps[0]);
      StepKeepsProvided(w, steps[0]);
      StepKeepsInv(w, steps[0]);
      if pid in Do(w, steps[0]).processes {
        StepKeepsReadyIn(w, steps[0], pid);
        ReadyReleaseLeavesProvided(Do(w, steps[0]), steps[1..], pid);
      } else {
        GuardedRunsProvide(Do(w, steps[0]), steps[1..]);
      }
    }
  }

  lemma {:induction false} GuardedIsGuardedBut(w: World, steps: seq<Step>, pid: nat)
    requires Inv(w) && GuardedRun(w, steps)
    ensures GuardedBut(w, steps, pid)
    decreases |steps|
  {
    if steps != [] {
      StepKeepsInv(w, steps[0]);
      GuardedIsGuardedBut(Do(w, steps[0]), steps[1..], pid);
    }
  }

  lemma StepCanDeprive(w: World, step: Step, pid: nat, s: SessionId)
    requires Inv(w) && ((step.Advance? && step.pid == pid) || ClaimsUnderLock(w, step))
    requires Inv(Do(w, step)) && pid in Do(w, step).processes && CanDeprive(Do(w, step), pid, s)
    ensures CanDeprive(w, pid, s)
  {
    var v := Do(w, step);
    var more :| GuardedBut(v, more, pid) && Deprived(After(v, more).rows, s);
    assert ([step] + more)[0] == step && ([step] + more)[1..] == more;
    assert GuardedBut(w, [step] + more, pid) && After(w, [step] + more) == After(v, more);
  }

  lemma {:induction false} RunCanDeprive(w: World, steps: seq<Step>, pid: nat, s: SessionId)
    requires Inv(w) && pid in w.processes && GuardedRun(w, steps) && AllLeaveAlone(steps, pid)
    requires CanDeprive(After(w, steps), pid, s)
    ensures CanDeprive(w, pid, s)
    decreases |steps|
  {
    if steps != [] {
      assert LeavesAlone(steps[0], pid);
      OtherStepsKeepProcess(w, steps[0], pid);
      StepKeepsInv(w, steps[0]);
      RunCanDeprive(Do(w, steps[0]), steps[1..], pid, s);
      StepCanDeprive(w, steps[0], pid, s);
    }
  }

  lemma BesideCanDeprive(w: World, v: World, pid: nat, s: SessionId)
    requires Inv(w) && pid in w.processes && Beside(w, v, pid) && Inv(v) && CanDeprive(v, pid, s)
    ensures CanDeprive(w, pid, s)
  {
    var steps :| GuardedRun(w, steps) && After(w, steps) == v && AllLeaveAlone(steps, pid);
    RunCanDeprive(w, steps, pid, s);
  }

  /** Release `pid` of `s` is about to claim, and does not hold the lock of the session's checkout `p`. */
  predicate Unlocked(w: World, pid: nat, s: SessionId, p: Path) {
    Inv(w) && Guarded(w) && Provided(w.rows)
    && pid in w.processes
    && var q := w.processes[pid];
       q.session == s && q.phase.Begun? && q.lock != Some(p)
       && p in w.rows.pool && w.rows.pool[p].IsActive() && w.rows.pool[p].session == s
  }

  lemma UnlockedClaimDeprives(w: World, pid: nat, s: SessionId, p: Path)
    requires Unlocked(w, pid, s, p) && ClaimOf(w.rows, s).Some?
    ensures CanDeprive(w, pid, s)
  {
    var step := Advance(pid, true);
    assert !ClaimsUnderLock(w, step);
    UnguardedClaimsCanLose(w, pid);
    var u := Do(w, step);
    var v :| Inv(v) && Reaches(u, v) && Deprived(v.rows, s);
    var more :| GuardedRun(u, more) && After(u, more) == v;
    GuardedIsGuardedBut(u, more, pid);
    assert ([step] + more)[0] == step && ([step] + more)[1..] == more;
    assert GuardedBut(w, [step] + more, pid) && After(w, [step] + more) == After(u, more);
  }

  lemma StaysUnlocked(w: World, v: World, pid: nat, s: SessionId, p: Path)
    requires Unlocked(w, pid, s, p) && Beside(w, v, pid) && v.rows.pool == w.rows.pool
    ensures Unlocked(v, pid, s, p)
  {
    BesideKeeps(w, v, pid);
  }

  lemma RetainedCanLose(w: World, pid: nat, s: SessionId, p: Path)
    requires Unlocked(w, pid, s, p) && InState(w.rows, s, Retained) && !w.rows.Busy(s)
    ensures CanDeprive(w, pid, s)
  {
    assert Backed(w.rows, p);
    assert w.rows.pool[p].HeldBy(s, w.rows.workers[s].incarnation, w.rows.workers[s].lease);
    assert CanClaim(w.rows, s, w.rows.workers[s].incarnation);
    UnlockedClaimDeprives(w, pid, s, p);
  }

  lemma BoundCanLose(w: World, pid: nat, s: SessionId, p: Path)
    requires Unlocked(w, pid, s, p) && (InState(w.rows, s, Active) || InState(w.rows, s, Retained))
    ensures CanDeprive(w, pid, s)
  {
    var u := Idle(w, s);
    BecomesIdle(w, pid, s);
    StaysUnlocked(w, u, pid, s, p);
    if InState(u.rows, s, Active) {
      StepBeside(u, Retain(s), pid);
      var v := Do(u, Retain(s));
      StaysUnlocked(u, v, pid, s, p);
      RetainedCanLose(v, pid, s, p);
      BesideCanDeprive(u, v, pid, s);
    } else {
      RetainedCanLose(u, pid, s, p);
    }
    BesideCanDeprive(w, u, pid, s);
  }

  /** Whatever state the worker is in, it can come to be claimed without the lock. */
  lemma UnlockedCanLose(w: World, pid: nat, s: SessionId, p: Path)
    requires Unlocked(w, pid, s, p)
    ensures CanDeprive(w, pid, s)
  {
    assert Backed(w.rows, p);
    if InState(w.rows, s, ReleaseClaimed) {
      UnlockedClaimDeprives(w, pid, s, p);
    } else if InState(w.rows, s, Allocating) {
      StepBeside(w, Bind(s, p), pid);
      var v := Do(w, Bind(s, p));
      StaysUnlocked(w, v, pid, s, p);
      BoundCanLose(v, pid, s, p);
      BesideCanDeprive(w, v, pid, s);
    } else {
      BoundCanLose(w, pid, s, p);
    }
  }

  ghost function LongerThan(paths: set<Path>): (r: Path)
    ensures forall p :: p in paths ==> |p| < |r|
    decreases |paths|
  {
    if paths == {} then ""
    else
      var p :| p in paths;
      var rest := LongerThan(paths - {p});
      assert forall other :: other in paths ==> other == p || other in paths - {p};
      if |p| < |rest| then rest else p + " "
  }

  /** A worker that has no checkout yet can get one whose lock the release does not hold. */
  lemma ReservingCanLose(w: World, pid: nat, s: SessionId)
    requires Inv(w) && Guarded(w) && Provided(w.rows)
    requires pid in w.processes && w.processes[pid].session == s && w.processes[pid].phase.Begun?
    requires InState(w.rows, s, Allocating) && !w.rows.HasActive(s)
    ensures CanDeprive(w, pid, s)
  {
    var lock := w.processes[pid].lock;
    var known := w.rows.pool.Keys + if lock.Some? then {lock.value} else {};
    var p := LongerThan(known);
    assert p !in known;
    StepBeside(w, Reserve(s, p, 0), pid);
    var v := Do(w, Reserve(s, p, 0));
    BesideKeeps(w, v, pid);
    assert Unlocked(v, pid, s, p);
    UnlockedCanLose(v, pid, s, p);
    BesideCanDeprive(w, v, pid, s);
  }

  lemma UnpooledCanLose(w: World, pid: nat, s: SessionId)
    requires Inv(w) && Guarded(w) && Provided(w.rows)
    requires pid in w.processes && w.processes[pid].session == s && w.processes[pid].phase.Begun?
    requires Unpooled(w.rows, s)
    ensures CanDeprive(w, pid, s)
  {
    UnpooledCanBeRefiled(w, pid, s);
    var v :| Inv(v) && Beside(w, v, pid) && InState(v.rows, s, Allocating) && !v.rows.HasActive(s)
             && v.rows.workers[s].incarnation !in w.issued;
    BesideKeeps(w, v, pid);
    ReservingCanLose(v, pid, s);
    BesideCanDeprive(w, v, pid, s);
  }

  /** The session has a checkout and the release aims at no lock; or it has none yet and may get one. */
  predicate Misaimed(rows: Rows, s: SessionId, aim: Option<Path>) {
    s in rows.workers && if rows.HasActive(s) then aim.None? else !WithoutForGood(rows, s)
  }

  lemma BegunCanLose(w: World, pid: nat, s: SessionId)
    requires Inv(w) && Guarded(w) && Provided(w.rows)
    requires pid in w.processes && w.processes[pid].session == s && w.processes[pid].phase.Begun?
    requires Misaimed(w.rows, s, w.processes[pid].lock)
    ensures CanDeprive(w, pid, s)
  {
    if w.rows.HasActive(s) {
      var p :| p in w.rows.pool && w.rows.pool[p].IsActive() && w.rows.pool[p].session == s;
      UnlockedCanLose(w, pid, s, p);
    } else if w.rows.workers[s].state.Allocating? {
      ReservingCanLose(w, pid, s);
    } else {
      UnpooledCanLose(w, pid, s);
    }
  }

  lemma LockingCanLose(w: World, pid: nat, s: SessionId, aim: Option<Path>)
    requires Inv(w) && Guarded(w) && Provided(w.rows)
    requires pid in w.processes && w.processes[pid] == Process(s, None, Waiting(aim))
    requires Misaimed(w.rows, s, aim) && (aim.Some? ==> !Taken(w, aim.value))
    ensures CanDeprive(w, pid, s)
  {
    var step := Advance(pid, true);
    StepKeepsInv(w, step);
    StepKeepsGuarded(w, step);
    var v := Do(w, step);
    assert v == w.(processes := w.processes[pid := Process(s, aim, Begun)]);
    BegunCanLose(v, pid, s);
    StepCanDeprive(w, step, pid, s);
  }

  lemma WaitingCanLose(w: World, pid: nat, s: SessionId, aim: Option<Path>)
    requires Inv(w) && Guarded(w) && Provided(w.rows)
    requires pid in w.processes && w.processes[pid] == Process(s, None, Waiting(aim))
    requires Misaimed(w.rows, s, aim)
    ensures CanDeprive(w, pid, s)
  {
    if aim.Some? && Taken(w, aim.value) {
      var holder :| holder in w.processes && w.processes[holder].lock == aim;
      StepBeside(w, Crash(holder), pid);
      var v := Do(w, Crash(holder));
      BesideKeeps(w, v, pid);
      assert !Taken(v, aim.value);
      LockingCanLose(v, pid, s, aim);
      BesideCanDeprive(w, v, pid, s);
    } else {
      LockingCanLose(w, pid, s, aim);
    }
  }

  /** A release may begin exactly where a caller finds the session's checkout on disk, or finds that it can have none
      any more: then, and only then, live workers keep their checkouts whatever follows, as long as all other releases
      claim under the lock. */
  lemma BeginningIsSafeExactly(w: World, pid: nat, s: SessionId)
    requires Inv(w) && Guarded(w) && Provided(w.rows) && pid !in w.processes && s in w.rows.workers
    ensures Inv(Do(w, Begin(pid, s)))
    ensures LeavesWorkersProvided(Do(w, Begin(pid, s)), pid) <==> SafeToBegin(w.rows, w.disk, s)
  {
    var step := Begin(pid, s);
    StepKeepsInv(w, step);
    StepKeepsGuarded(w, step);
    var v := Do(w, step);
    var aim := LockFor(w.rows, w.disk, s);
    assert v.rows == w.rows && v.processes[pid] == Process(s, None, Waiting(aim));
    if SafeToBegin(w.rows, w.disk, s) {
      BeginningIsReady(w, pid, s);
      forall steps | GuardedBut(v, steps, pid) ensures Provided(After(v, steps).rows) {
        ReadyReleaseLeavesProvided(v, steps, pid);
      }
    } else {
      assert Misaimed(v.rows, s, aim);
      WaitingCanLose(v, pid, s, aim);
      var steps :| GuardedBut(v, steps, pid) && Deprived(After(v, steps).rows, s);
      assert !Provided(After(v, steps).rows);
    }
  }
}
