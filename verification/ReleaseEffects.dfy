/** What releases and the steps around them do to a worker's row and to a checkout, said outright: exactly when a worker
    is claimed, exactly when a release succeeds, and what it leaves. */
module ReleaseEffects {
  import opened NinoxTypes
  import opened ReleaseStore
  import opened ReleaseProtocol

  /** Checkout `p` is taken, by exactly this session, incarnation and lease. */
  predicate TakenBy(rows: Rows, p: Path, s: SessionId, w: Worker) {
    p in rows.pool && rows.pool[p].state != Free && rows.pool[p].session == s && rows.pool[p].owner == w.incarnation
    && w.lease == Some(rows.pool[p].lease)
  }

  /** A worker that may be claimed: retained, no runtime start or finalization under way, and its lease, if it is bound
      to one, still its own. */
  predicate MayBeClaimed(rows: Rows, s: SessionId) {
    s in rows.workers && rows.workers[s].state == Retained && s !in rows.starting && s !in rows.finalizing
    && (rows.workers[s].lease == None || exists p :: p in rows.pool && TakenBy(rows, p, s, rows.workers[s]))
  }

  lemma ClaimableExactly(rows: Rows, s: SessionId)
    ensures ClaimOf(rows, s).Some?
       <==> MayBeClaimed(rows, s)
            || (s in rows.workers && rows.workers[s].state == ReleaseClaimed && s !in rows.starting)
    ensures ClaimOf(rows, s).Some? ==> ClaimOf(rows, s).value == rows.workers[s].(state := ReleaseClaimed)
  {
    if s in rows.workers {
      forall p | p in rows.pool
        ensures rows.pool[p].HeldBy(s, rows.workers[s].incarnation, rows.workers[s].lease)
           <==> TakenBy(rows, p, s, rows.workers[s])
      {
      }
    }
  }

  /** No step of any run claims a worker but the claiming step of a release of its session, and that one exactly if the
      worker may be claimed: never while its runtime starts or its incarnation is being finalized. */
  lemma ClaimedExactly(w: World, step: Step, s: SessionId)
    requires Inv(w) && !InState(w.rows, s, ReleaseClaimed)
    ensures InState(Do(w, step).rows, s, ReleaseClaimed)
       <==> step.Advance? && step.ok && step.pid in w.processes && w.processes[step.pid].session == s
            && w.processes[step.pid].phase == Begun && MayBeClaimed(w.rows, s)
  {
    ClaimableExactly(w.rows, s);
    if step.Advance? && step.pid in w.processes {
      AdvancedRows(w, step.pid, step.ok);
      var q := w.processes[step.pid];
      if q.session != s {
        ClaimableExactly(w.rows, q.session);
      }
    }
  }

  // ---------------------------------------------------------------- one release

  /** Its claimed checkout was given back before: its record is free, or gone with the directory. */
  predicate GivenBack(rows: Rows, disk: set<Path>, path: Path) {
    if path in rows.pool then rows.pool[path].state == Free else path !in disk
  }

  /** What the release finds under its session can be returned: the exact lease, and either no directory any more, or
      one that Git lets go of. */
  predicate Returnable(rows: Rows, disk: set<Path>, s: SessionId, p: Path, gitOk: bool)
    requires s in rows.workers
  {
    TakenBy(rows, p, s, rows.workers[s]) && (p !in disk || (gitOk && rows.pool[p].state == Leased))
  }

  /** A release starts if its worker may be claimed or is claimed already. */
  predicate Starts(rows: Rows, s: SessionId) {
    s !in rows.starting && (MayBeClaimed(rows, s) || InState(rows, s, ReleaseClaimed))
  }

  predicate Held(rows: Rows, s: SessionId, p: Path) {
    p in rows.pool && rows.pool[p].state != Free && rows.pool[p].session == s
  }

  /** The release succeeds exactly if it starts, the runtime stops, and the checkout can be returned or was. */
  predicate Succeeds(rows: Rows, disk: set<Path>, s: SessionId, stopOk: bool, gitOk: bool) {
    Starts(rows, s) && stopOk
    && if exists p :: p in rows.pool && Held(rows, s, p)
       then exists p :: p in rows.pool && Held(rows, s, p) && Returnable(rows, disk, s, p, gitOk)
       else GivenBack(rows, disk, rows.workers[s].path)
  }

  lemma HeldIsFound(rows: Rows, s: SessionId, p: Path)
    requires rows.OneActivePerSession() && Held(rows, s, p)
    ensures ActivePath(rows, s) == Some(p)
  {
    assert rows.pool[p].IsActive();
  }

  lemma NothingIsFound(rows: Rows, s: SessionId)
    requires rows.OneActivePerSession() && !exists p :: p in rows.pool && Held(rows, s, p)
    ensures ActivePath(rows, s) == None
  {
    forall p | p in rows.pool ensures !(rows.pool[p].IsActive() && rows.pool[p].session == s) {
      assert !Held(rows, s, p);
    }
  }

  /** What a release leaves: the worker released or retained as the result says, if the release started; the returned
      checkout free, or its record gone with the directory; and all other rows as they were. */
  ghost predicate Leaves(rows: Rows, disk: set<Path>, s: SessionId, started: bool, ok: bool, after: Rows)
    requires started ==> s in rows.workers
  {
    after.starting == rows.starting && after.finalizing == rows.finalizing
    && after.workers == (if started then rows.workers[s := rows.workers[s].(state := if ok then Released else Retained)]
                         else rows.workers)
    && forall p :: (p in after.pool <==> p in rows.pool && !(ok && Held(rows, s, p) && p !in disk))
                   && (p in after.pool ==>
                         after.pool[p] == if ok && Held(rows, s, p) then rows.pool[p].(state := Free) else rows.pool[p])
  }

  /** The tables once the release has its claim. */
  lemma ClaimingLeaves(rows: Rows, s: SessionId)
    requires Starts(rows, s)
    ensures ClaimOf(rows, s) == Some(rows.workers[s].(state := ReleaseClaimed))
    ensures RowsAfterClaim(rows, s)
            == rows.(workers := rows.workers[s := rows.workers[s].(state := ReleaseClaimed)])
  {
    ClaimableExactly(rows, s);
  }

  lemma ReturnsHeld(rows: Rows, disk: set<Path>, s: SessionId, p: Path, gitOk: bool)
    requires rows.OneActivePerSession() && InState(rows, s, ReleaseClaimed) && Held(rows, s, p)
    ensures var (after, ok) := ReturnCheckout(rows, disk, s, rows.workers[s], gitOk);
            (ok <==> Returnable(rows, disk, s, p, gitOk))
            && after == if !ok then rows
                        else rows.(pool := if p in disk then rows.pool[p := rows.pool[p].(state := Free)]
                                           else rows.pool - {p})
  {
    HeldIsFound(rows, s, p);
  }

  lemma ReturnsNothing(rows: Rows, disk: set<Path>, s: SessionId, gitOk: bool)
    requires rows.OneActivePerSession() && InState(rows, s, ReleaseClaimed)
    requires !exists p :: p in rows.pool && Held(rows, s, p)
    ensures ReturnCheckout(rows, disk, s, rows.workers[s], gitOk) == (rows, GivenBack(rows, disk, rows.workers[s].path))
  {
    NothingIsFound(rows, s);
  }

  /** A release succeeds exactly as said above, and leaves exactly that. */
  lemma ReleaseExactly(rows: Rows, disk: set<Path>, s: SessionId, stopOk: bool, gitOk: bool)
    requires rows.OneActivePerSession()
    ensures var (after, ok) := RunRelease(rows, disk, s, stopOk, gitOk);
            (ok <==> Succeeds(rows, disk, s, stopOk, gitOk)) && Leaves(rows, disk, s, Starts(rows, s), ok, after)
  {
    ClaimableExactly(rows, s);
    if Starts(rows, s) {
      StartedReleaseExactly(rows, disk, s, stopOk, gitOk);
    }
  }

  function Claimed(rows: Rows, s: SessionId): Rows
    requires s in rows.workers
  {
    rows.(workers := rows.workers[s := rows.workers[s].(state := ReleaseClaimed)])
  }

  lemma RunsFromClaim(rows: Rows, disk: set<Path>, s: SessionId, stopOk: bool, gitOk: bool)
    requires rows.OneActivePerSession() && Starts(rows, s)
    ensures var (returned, ok) := ReturnCheckout(Claimed(rows, s), disk, s, Claimed(rows, s).workers[s], gitOk);
            returned.workers == Claimed(rows, s).workers ==>
              RunRelease(rows, disk, s, stopOk, gitOk)
              == if !stopOk then (SetState(Claimed(rows, s), s, Retained), false)
                 else (SetState(returned, s, if ok then Released else Retained), ok)
  {
    ClaimingLeaves(rows, s);
  }

  lemma HoldingReleaseExactly(rows: Rows, disk: set<Path>, s: SessionId, p: Path, stopOk: bool, gitOk: bool)
    requires rows.OneActivePerSession() && Starts(rows, s) && Held(rows, s, p)
    ensures var (after, ok) := RunRelease(rows, disk, s, stopOk, gitOk);
            (ok <==> stopOk && Returnable(rows, disk, s, p, gitOk)) && Leaves(rows, disk, s, true, ok, after)
  {
    HeldIsFound(rows, s, p);
    RunsFromClaim(rows, disk, s, stopOk, gitOk);
    ReturnsHeld(Claimed(rows, s), disk, s, p, gitOk);
  }

  lemma BareReleaseExactly(rows: Rows, disk: set<Path>, s: SessionId, stopOk: bool, gitOk: bool)
    requires rows.OneActivePerSession() && Starts(rows, s) && !exists p :: p in rows.pool && Held(rows, s, p)
    ensures var (after, ok) := RunRelease(rows, disk, s, stopOk, gitOk);
            (ok <==> stopOk && GivenBack(rows, disk, rows.workers[s].path)) && Leaves(rows, disk, s, true, ok, after)
  {
    RunsFromClaim(rows, disk, s, stopOk, gitOk);
    ReturnsNothing(Claimed(rows, s), disk, s, gitOk);
  }

  lemma StartedReleaseExactly(rows: Rows, disk: set<Path>, s: SessionId, stopOk: bool, gitOk: bool)
    requires rows.OneActivePerSession() && Starts(rows, s)
    ensures var (after, ok) := RunRelease(rows, disk, s, stopOk, gitOk);
            (ok <==> Succeeds(rows, disk, s, stopOk, gitOk)) && Leaves(rows, disk, s, true, ok, after)
  {
    if p :| p in rows.pool && Held(rows, s, p) {
      HeldIsFound(rows, s, p);
      HoldingReleaseExactly(rows, disk, s, p, stopOk, gitOk);
    } else {
      BareReleaseExactly(rows, disk, s, stopOk, gitOk);
    }
  }

  // ---------------------------------------------------------------- the lock

  /** A release that begins aims at the lock of the checkout that its session holds, or else of the recorded one its row
      names, if the directory is there; and it goes on once nobody else has it. */
  lemma LocksExactly(w: World, pid: nat, s: SessionId, p: Path)
    requires Inv(w) && pid !in w.processes && s in w.rows.workers
    ensures var q := Do(w, Begin(pid, s)).processes[pid];
            q.session == s && q.lock == None && q.phase.Waiting?
            && (q.phase.on == Some(p)
                <==> p in w.disk
                     && (Held(w.rows, s, p)
                         || (p == w.rows.workers[s].path && p in w.rows.pool
                             && forall other :: other in w.rows.pool ==> !Held(w.rows, s, other))))
  {
    forall other | other in w.rows.pool && Held(w.rows, s, other) ensures ActivePath(w.rows, s) == Some(other) {
      HeldIsFound(w.rows, s, other);
    }
    if forall other :: other in w.rows.pool ==> !Held(w.rows, s, other) {
      NothingIsFound(w.rows, s);
    }
  }

  lemma WaitsExactly(w: World, pid: nat, ok: bool)
    requires Inv(w) && pid in w.processes && w.processes[pid].phase.Waiting?
    ensures var (q, v) := (w.processes[pid], Do(w, Advance(pid, ok)));
            v.rows == w.rows && v.disk == w.disk
            && if q.phase.on.None? then v.processes == w.processes[pid := q.(phase := Begun)]
               else if !ok then v.processes == w.processes - {pid}
               else if exists other :: other in w.processes && w.processes[other].lock == q.phase.on then v == w
               else v.processes == w.processes[pid := Process(q.session, q.phase.on, Begun)]
  {
  }

  // ---------------------------------------------------------------- the steps around a release

  /** A session may be re-filed unless something is under way for it, and if it has a row: unless that is still being
      allocated or claimed, or bound to a lease that is no longer its own. */
  ghost predicate MayBeRefiled(rows: Rows, s: SessionId) {
    s != "" && s !in rows.starting && s !in rows.finalizing
    && (s in rows.workers ==>
          rows.workers[s].state != Allocating && rows.workers[s].state != ReleaseClaimed
          && (rows.workers[s].lease == None || exists p :: p in rows.pool && TakenBy(rows, p, s, rows.workers[s])))
  }

  /** Re-filing gives the session an incarnation never used before, which takes the prior one's lease and checkout
      along, and nobody else's. */
  lemma RefiledExactly(w: World, s: SessionId, i: Id, path: Path)
    requires Inv(w) && i !in w.issued
    ensures var v := Do(w, Refile(s, i, path));
            if !MayBeRefiled(w.rows, s) then v == w
            else
              v.issued == w.issued[i := s] && v.disk == w.disk && v.processes == w.processes
              && v.rows.starting == w.rows.starting && v.rows.finalizing == w.rows.finalizing
              && v.rows.workers == w.rows.workers[s :=
                if s in w.rows.workers then Worker(i, w.rows.workers[s].lease, w.rows.workers[s].path, Allocating)
                else Worker(i, None, path, Allocating)]
  {
    if s in w.rows.workers {
      CarriesExactly(w, s);
    }
  }

  /** A worker that is no longer being allocated carries exactly the lease that it is bound to. */
  lemma CarriesExactly(w: World, s: SessionId)
    requires Inv(w) && s in w.rows.workers
    ensures w.rows.workers[s].state != Allocating ==> LeaseToCarry(w.rows, s) == w.rows.workers[s].lease
    ensures CanRefile(w.rows, s) <==> MayBeRefiled(w.rows, s)
  {
    var prior := w.rows.workers[s];
    forall p | p in w.rows.pool
      ensures w.rows.pool[p].HeldBy(s, prior.incarnation, prior.lease) <==> TakenBy(w.rows, p, s, prior)
      ensures w.rows.pool[p].IsActive() && w.rows.pool[p].session == s && prior.state != Allocating ==>
                prior.lease == Some(w.rows.pool[p].lease)
    {
      assert Backed(w.rows, p);
    }
    if w.rows.HasActive(s) {
      assert ActivePath(w.rows, s).Some?;
    }
  }

  lemma RefilingMovesCheckouts(w: World, s: SessionId, i: Id, path: Path, p: Path)
    requires Inv(w) && i !in w.issued && MayBeRefiled(w.rows, s)
    ensures var (before, after) := (w.rows.pool, Do(w, Refile(s, i, path)).rows.pool);
            (p in after <==> p in before)
            && (p in after ==> after[p] == if Held(w.rows, s, p) then before[p].(owner := i) else before[p])
  {
    if s in w.rows.workers {
      CarriesExactly(w, s);
    }
    if p in w.rows.pool {
      assert Backed(w.rows, p);
    }
  }

  /** Reserving takes a checkout that is free or unknown, for a worker that is being allocated and has none; it is
      leased once provisioned. */
  lemma ReservedExactly(w: World, s: SessionId, p: Path, l: Id)
    requires Inv(w)
    ensures Do(w, Reserve(s, p, l))
            == if s in w.rows.workers && w.rows.workers[s].state == Allocating
                  && (forall q :: q in w.rows.pool ==> !Held(w.rows, s, q))
                  && (p in w.rows.pool ==> w.rows.pool[p].state == Free)
               then w.(rows := w.rows.(
                 pool := w.rows.pool[p := Slot(Provisioning, s, w.rows.workers[s].incarnation, l)])) else w
    ensures Do(w, Provision(p))
            == if p in w.rows.pool && w.rows.pool[p].state == Provisioning
                  && var slot := w.rows.pool[p];
                     slot.session in w.rows.workers && w.rows.workers[slot.session].incarnation == slot.owner
                     && w.rows.workers[slot.session].state == Allocating
               then w.(rows := w.rows.(pool := w.rows.pool[p := w.rows.pool[p].(state := Leased)])) else w
  {
    assert w.rows.HasActive(s) <==> exists q :: q in w.rows.pool && Held(w.rows, s, q);
  }

  /** Binding makes an allocated worker active, under the lease and path of the checkout that its session holds, if it
      holds one. */
  lemma BoundExactly(w: World, s: SessionId, path: Path)
    requires Inv(w)
    ensures var v := Do(w, Bind(s, path));
            if !InState(w.rows, s, Allocating) then v == w
            else
              v == w.(rows := w.rows.(workers := w.rows.workers[s := v.rows.workers[s]]))
              && v.rows.workers[s].incarnation == w.rows.workers[s].incarnation && v.rows.workers[s].state == Active
              && (forall p :: p in w.rows.pool && Held(w.rows, s, p) ==>
                    v.rows.workers[s].lease == Some(w.rows.pool[p].lease) && v.rows.workers[s].path == p)
              && ((forall p :: p in w.rows.pool ==> !Held(w.rows, s, p)) ==>
                    v.rows.workers[s].lease == None && v.rows.workers[s].path == path)
  {
    forall p | p in w.rows.pool && Held(w.rows, s, p) ensures ActivePath(w.rows, s) == Some(p) {
      HeldIsFound(w.rows, s, p);
    }
    if forall p :: p in w.rows.pool ==> !Held(w.rows, s, p) {
      NothingIsFound(w.rows, s);
    }
  }

  /** A worker is retained from active only while no start is under way. A runtime may start where nothing is under way
      and the lease is still the worker's own; once started it makes the worker active if its state is unchanged. */
  lemma RuntimeStepsExactly(w: World, s: SessionId, ok: bool)
    requires Inv(w)
    ensures Do(w, Retain(s))
            == if InState(w.rows, s, Active) && s !in w.rows.starting then w.(rows := SetState(w.rows, s, Retained))
               else w
    ensures Do(w, StartRuntime(s))
            == if (InState(w.rows, s, Active) || InState(w.rows, s, Retained)) && s !in w.rows.starting
                  && s !in w.rows.finalizing
                  && (w.rows.workers[s].lease == None
                      || exists p :: p in w.rows.pool && TakenBy(w.rows, p, s, w.rows.workers[s]))
               then w.(rows := w.rows.(starting := w.rows.starting[s := w.rows.workers[s].state])) else w
    ensures Do(w, EndRuntime(s, ok))
            == if s !in w.rows.starting then w
               else
                 var ended := w.rows.(starting := w.rows.starting - {s});
                 w.(rows := if ok then SetState(ended, s, Active) else ended)
  {
    if s in w.rows.workers {
      forall p | p in w.rows.pool
        ensures w.rows.pool[p].HeldBy(s, w.rows.workers[s].incarnation, w.rows.workers[s].lease)
           <==> TakenBy(w.rows, p, s, w.rows.workers[s])
      {
      }
    }
  }

  /** A crash takes a release and its lock with it and nothing else; finalizations and the disk are what they are said
      to be. */
  lemma OutsideStepsExactly(w: World, pid: nat, s: SessionId, disk: set<Path>)
    requires Inv(w)
    ensures Do(w, Crash(pid)) == w.(processes := w.processes - {pid})
    ensures Do(w, Finalize(s, true)) == w.(rows := w.rows.(finalizing := w.rows.finalizing + {s}))
    ensures Do(w, Finalize(s, false)) == w.(rows := w.rows.(finalizing := w.rows.finalizing - {s}))
    ensures Do(w, DiskIs(disk)) == w.(disk := disk)
  {
    if pid !in w.processes {
      assert w.processes - {pid} == w.processes;
    }
  }
}
