/** `ninox release`: handing a finished worker's checkout back to the pool. The store's operations are atomic
    compare-and-set updates on the exact session, incarnation and lease. */
module ReleaseStore {
  import opened NinoxTypes

  type Path = string
  type Id = nat

  datatype WorkerState = Allocating | Active | Retained | ReleaseClaimed | Released

  /** A session's current worker incarnation. */
  datatype Worker = Worker(incarnation: Id, lease: Option<Id>, path: Path, state: WorkerState)

  datatype SlotState = Provisioning | Leased | Free

  /** A pooled checkout. A free one has no session, owner or lease: what those fields then hold means nothing. */
  datatype Slot = Slot(state: SlotState, session: SessionId, owner: Id, lease: Id)
  {
    predicate IsActive() {
      !state.Free?
    }

    /** The checkout is leased to exactly this session, incarnation and lease. */
    predicate HeldBy(s: SessionId, i: Id, l: Option<Id>) {
      IsActive() && session == s && owner == i && l == Some(lease)
    }
  }

  /** The tables. `starting` keeps, for each session whose runtime is being started, the worker state to come back to;
      `finalizing` holds the sessions whose current incarnation is being finalized. */
  datatype Rows = Rows(
    workers: map<SessionId, Worker>, pool: map<Path, Slot>, starting: map<SessionId, WorkerState>,
      finalizing: set<SessionId>)
  {
    /** A runtime start or a finalization is under way. */
    predicate Busy(s: SessionId) {
      s in starting || s in finalizing
    }

    /** A worker that is bound to a lease still holds it. */
    predicate KeepsLease(s: SessionId)
      requires s in workers
    {
      workers[s].lease.Some? ==> SomeSlotHeldBy(s, workers[s].incarnation, workers[s].lease)
    }

    /** The worker row is still this incarnation, in this state. */
    predicate Is(s: SessionId, i: Id, state: WorkerState) {
      s in workers && workers[s].incarnation == i && workers[s].state == state
    }

    predicate HasActive(s: SessionId) {
      exists p :: p in pool && pool[p].IsActive() && pool[p].session == s
    }

    predicate SomeSlotHeldBy(s: SessionId, i: Id, l: Option<Id>) {
      exists p :: p in pool && pool[p].HeldBy(s, i, l)
    }

    /** The unique index: at most one active checkout for a session. */
    predicate OneActivePerSession() {
      forall p, q :: p in pool && q in pool && pool[p].IsActive() && pool[q].IsActive()
        && pool[p].session == pool[q].session
        ==> p == q
    }
  }

  function SetState(rows: Rows, s: SessionId, state: WorkerState): Rows
    requires s in rows.workers
  {
    rows.(workers := rows.workers[s := rows.workers[s].(state := state)])
  }

  // ---------------------------------------------------------------- the store's compare-and-set operations

  predicate CanClaim(rows: Rows, s: SessionId, i: Id) {
    !rows.Busy(s) && rows.Is(s, i, Retained) && rows.KeepsLease(s)
  }

  function ClaimRelease(rows: Rows, s: SessionId, i: Id): Rows {
    if CanClaim(rows, s, i) then SetState(rows, s, ReleaseClaimed) else rows
  }

  /** Moves the exact claimed incarnation on, to Retained when it is aborted and to Released when it is complete. */
  function EndClaim(rows: Rows, s: SessionId, i: Id, state: WorkerState): Rows {
    if rows.Is(s, i, ReleaseClaimed) then SetState(rows, s, state) else rows
  }

  predicate CanFree(rows: Rows, p: Path, s: SessionId, i: Id, l: Option<Id>) {
    p in rows.pool && rows.pool[p].state.Leased? && rows.pool[p].HeldBy(s, i, l)
  }

  function FreeSlot(rows: Rows, p: Path, s: SessionId, i: Id, l: Option<Id>): Rows {
    if CanFree(rows, p, s, i, l) then rows.(pool := rows.pool[p := rows.pool[p].(state := Free)]) else rows
  }

  predicate CanRemove(rows: Rows, p: Path, s: SessionId, i: Id, l: Option<Id>) {
    p in rows.pool && rows.pool[p].HeldBy(s, i, l)
  }

  function RemoveSlot(rows: Rows, p: Path, s: SessionId, i: Id, l: Option<Id>): Rows {
    if CanRemove(rows, p, s, i, l) then rows.(pool := rows.pool - {p}) else rows
  }

  function ActivePath(rows: Rows, s: SessionId): Option<Path>
    requires rows.OneActivePerSession()
  {
    if rows.HasActive(s) then
      var p :| p in rows.pool && rows.pool[p].IsActive() && rows.pool[p].session == s;
      Some(p)
    else None
  }

  // ---------------------------------------------------------------- one release

  /** What the claimed worker's checkout calls for. */
  datatype Verdict = Recycle(path: Path) | RemoveMissing(path: Path) | NoRecord | Refuse

  /** The lookup by session, with the capability check on what it finds. */
  function Assess(rows: Rows, disk: set<Path>, s: SessionId, claim: Worker): Verdict
    requires rows.OneActivePerSession()
  {
    var found := ActivePath(rows, s);
    if found.None? then NoRecord
    else if !rows.pool[found.value].HeldBy(s, claim.incarnation, claim.lease) then Refuse
    else if found.value !in disk then RemoveMissing(found.value)
    else Recycle(found.value)
  }

  /** The lookup by path, for a checkout that the session no longer holds: an earlier release may have freed it. */
  predicate AlreadyReturned(rows: Rows, disk: set<Path>, claim: Worker) {
    if claim.path in rows.pool then rows.pool[claim.path].state.Free?
    else claim.state.ReleaseClaimed? && claim.path !in disk
  }

  /** `release_retained_worker_checkout`: the rows it leaves and whether it succeeded. */
  function ReturnCheckout(rows: Rows, disk: set<Path>, s: SessionId, claim: Worker, gitOk: bool): (Rows, bool)
    requires rows.OneActivePerSession()
  {
    match Assess(rows, disk, s, claim)
    case Refuse => (rows, false)
    case NoRecord => (rows, AlreadyReturned(rows, disk, claim))
    case RemoveMissing(p) => (RemoveSlot(rows, p, s, claim.incarnation, claim.lease),
                              CanRemove(rows, p, s, claim.incarnation, claim.lease))
    case Recycle(p) =>
      if gitOk
      then (FreeSlot(rows, p, s, claim.incarnation, claim.lease), CanFree(rows, p, s, claim.incarnation, claim.lease))
      else (rows, false)
  }

  /** `settle_worker_release`. */
  function Settle(rows: Rows, s: SessionId, claim: Worker, ok: bool): Rows {
    EndClaim(rows, s, claim.incarnation, if ok then Released else Retained)
  }

  /** The claim a release works under: an earlier run's, or a new one on a retained worker. */
  function ClaimOf(rows: Rows, s: SessionId): Option<Worker> {
    if s !in rows.workers || s in rows.starting then None
    else
      var w := rows.workers[s];
      if w.state.ReleaseClaimed? then Some(w)
      else if CanClaim(rows, s, w.incarnation) then Some(w.(state := ReleaseClaimed))
      else None
  }

  function RowsAfterClaim(rows: Rows, s: SessionId): Rows {
    if ClaimOf(rows, s).Some? && !rows.workers[s].state.ReleaseClaimed?
    then ClaimRelease(rows, s, rows.workers[s].incarnation)
    else rows
  }

  /** `run_release` with nothing else going on: the rows it leaves and whether it succeeded. */
  function RunRelease(rows: Rows, disk: set<Path>, s: SessionId, stopOk: bool, gitOk: bool): (Rows, bool)
    requires rows.OneActivePerSession()
  {
    var claim := ClaimOf(rows, s);
    if claim.None? then (rows, false)
    else
      var claimed := RowsAfterClaim(rows, s);
      if !stopOk then (EndClaim(claimed, s, claim.value.incarnation, Retained), false)
      else
        var (returned, ok) := ReturnCheckout(claimed, disk, s, claim.value, gitOk);
        (Settle(returned, s, claim.value, ok), ok && returned.Is(s, claim.value.incarnation, ReleaseClaimed))
  }

  /** The store, with its tables updated in place. */
  class Store {
    var workers: map<SessionId, Worker>
    var pool: map<Path, Slot>
    var starting: map<SessionId, WorkerState>
    var finalizing: set<SessionId>

    function State(): Rows
      reads this
    {
      Rows(workers, pool, starting, finalizing)
    }

    constructor (rows: Rows)
      ensures State() == rows
    {
      workers, pool, starting, finalizing := rows.workers, rows.pool, rows.starting, rows.finalizing;
    }

    method ClaimWorkerRelease(s: SessionId, i: Id) returns (claim: Option<Worker>)
      modifies this
      ensures State() == ClaimRelease(old(State()), s, i)
      ensures claim == if CanClaim(old(State()), s, i) then Some(old(workers[s]).(state := ReleaseClaimed)) else None
    {
      if CanClaim(State(), s, i) {
        workers := workers[s := workers[s].(state := ReleaseClaimed)];
        return Some(workers[s]);
      }
      return None;
    }

    method EndWorkerClaim(s: SessionId, i: Id, state: WorkerState) returns (changed: bool)
      modifies this
      ensures State() == EndClaim(old(State()), s, i, state)
      ensures changed == old(State()).Is(s, i, ReleaseClaimed)
    {
      changed := State().Is(s, i, ReleaseClaimed);
      if changed {
        workers := workers[s := workers[s].(state := state)];
      }
    }

    method ReleasePooledCheckout(p: Path, s: SessionId, i: Id, l: Option<Id>) returns (changed: bool)
      modifies this
      ensures State() == FreeSlot(old(State()), p, s, i, l)
      ensures changed == CanFree(old(State()), p, s, i, l)
    {
      changed := CanFree(State(), p, s, i, l);
      if changed {
        pool := pool[p := pool[p].(state := Free)];
      }
    }

    method RemoveMissingCheckout(p: Path, s: SessionId, i: Id, l: Option<Id>) returns (changed: bool)
      modifies this
      ensures State() == RemoveSlot(old(State()), p, s, i, l)
      ensures changed == CanRemove(old(State()), p, s, i, l)
    {
      changed := CanRemove(State(), p, s, i, l);
      if changed {
        pool := pool - {p};
      }
    }
  }

  method ReleaseRetainedCheckout(store: Store, disk: set<Path>, s: SessionId, claim: Worker, gitOk: bool)
    returns (ok: bool)
    requires store.State().OneActivePerSession()
    modifies store
    ensures (store.State(), ok) == ReturnCheckout(old(store.State()), disk, s, claim, gitOk)
  {
    match Assess(store.State(), disk, s, claim) {
      case Refuse => ok := false;
      case NoRecord => ok := AlreadyReturned(store.State(), disk, claim);
      case RemoveMissing(p) => ok := store.RemoveMissingCheckout(p, s, claim.incarnation, claim.lease);
      case Recycle(p) =>
        if !gitOk {
          return false;
        }
        ok := store.ReleasePooledCheckout(p, s, claim.incarnation, claim.lease);
    }
  }

  method SettleWorkerRelease(store: Store, s: SessionId, claim: Worker, result: bool) returns (ok: bool)
    modifies store
    ensures store.State() == Settle(old(store.State()), s, claim, result)
    ensures ok == (result && old(store.State()).Is(s, claim.incarnation, ReleaseClaimed))
  {
    if result {
      ok := store.EndWorkerClaim(s, claim.incarnation, Released);
    } else {
      var _ := store.EndWorkerClaim(s, claim.incarnation, Retained);
      ok := false;
    }
  }

  method Release(store: Store, disk: set<Path>, s: SessionId, stopOk: bool, gitOk: bool) returns (ok: bool)
    requires store.State().OneActivePerSession()
    modifies store
    ensures (store.State(), ok) == RunRelease(old(store.State()), disk, s, stopOk, gitOk)
  {
    if s !in store.workers || s in store.starting {
      return false;
    }
    var claim := Some(store.workers[s]);
    if !store.workers[s].state.ReleaseClaimed? {
      claim := store.ClaimWorkerRelease(s, store.workers[s].incarnation);
      if claim.None? {
        return false;
      }
    }
    if !stopOk {
      var _ := store.EndWorkerClaim(s, claim.value.incarnation, Retained);
      return false;
    }
    var result := ReleaseRetainedCheckout(store, disk, s, claim.value, gitOk);
    ok := SettleWorkerRelease(store, s, claim.value, result);
  }
}
