/** Releases, crashes, re-leases and runtime starts interleaving on one store. A release is a sequence of atomic
    steps: a store call, a look at the disk, the lock, or an outside call that may fail. It takes the lock of its
    session's checkout only when a record of one exists and its directory is on disk. */
module ReleaseProtocol {
  import opened NinoxTypes
  import opened ReleaseStore

  /** How far a release has come. `on` is the checkout whose lock it waits for, if any. */
  datatype Phase =
    | Waiting(on: Option<Path>)
    | Begun
    | Claimed(claim: Worker)
    | Stopped(claim: Worker)
    | Found(claim: Worker, path: Path)
    | NotHeld(claim: Worker)
    | Missing(claim: Worker, path: Path)
    | Recycling(claim: Worker, path: Path)
    | Settling(claim: Worker, ok: bool)
  {
    predicate HasClaim() {
      !Waiting? && !Begun?
    }
  }

  /** A release in flight, with the checkout whose lock it holds. */
  datatype Process = Process(session: SessionId, lock: Option<Path>, phase: Phase)

  /** `issued` remembers which session every incarnation was given to. */
  datatype World = World(rows: Rows, disk: set<Path>, processes: map<nat, Process>, issued: map<Id, SessionId>)

  datatype Step =
    | Begin(pid: nat, session: SessionId)
    | Advance(pid: nat, ok: bool)
    | Crash(pid: nat)
    | Refile(session: SessionId, incarnation: Id, path: Path)
    | Reserve(session: SessionId, path: Path, lease: Id)
    | Provision(path: Path)
    | Bind(session: SessionId, path: Path)
    | Retain(session: SessionId)
    | StartRuntime(session: SessionId)
    | EndRuntime(session: SessionId, ok: bool)
    | Finalize(session: SessionId, begins: bool)
    | DiskIs(disk: set<Path>)

  const EMPTY := World(Rows(map[], map[], map[], {}), {}, map[], map[])

  // ---------------------------------------------------------------- the lock

  /** The checkout whose lock a release of `s` takes: the one its session holds, or else the one its worker row names;
      but none without a record, and none whose directory is gone. */
  function LockFor(rows: Rows, disk: set<Path>, s: SessionId): Option<Path>
    requires s in rows.workers && rows.OneActivePerSession()
  {
    var held := ActivePath(rows, s);
    var path := rows.workers[s].path;
    var record := if held.Some? then held else if path in rows.pool then Some(path) else None;
    if record.Some? && record.value in disk then record else None
  }

  predicate Taken(w: World, p: Path) {
    exists pid :: pid in w.processes && w.processes[pid].lock == Some(p)
  }

  // ---------------------------------------------------------------- the steps of a release

  function Move(w: World, pid: nat, phase: Phase): World
    requires pid in w.processes
  {
    w.(processes := w.processes[pid := w.processes[pid].(phase := phase)])
  }

  function End(w: World, pid: nat, rows: Rows): World {
    w.(rows := rows, processes := w.processes - {pid})
  }

  /** The next atomic step of a release. `ok` is whether the lock's file opens, the row is still the one read before,
      the runtime stops, or Git agrees. */
  function Advanced(w: World, pid: nat, ok: bool): World
    requires pid in w.processes && w.rows.OneActivePerSession()
  {
    var s := w.processes[pid].session;
    match w.processes[pid].phase
    case Waiting(on) =>
      if on.None? then Move(w, pid, Begun)
      else if !ok then End(w, pid, w.rows)
      else if Taken(w, on.value) then w
      else w.(processes := w.processes[pid := Process(s, on, Begun)])
    case Begun =>
      var claim := ClaimOf(w.rows, s);
      if !ok || claim.None? then End(w, pid, w.rows)
      else Move(w, pid, Claimed(claim.value)).(rows := RowsAfterClaim(w.rows, s))
    case Claimed(c) =>
      if ok then Move(w, pid, Stopped(c)) else End(w, pid, EndClaim(w.rows, s, c.incarnation, Retained))
    case Stopped(c) =>
      var found := ActivePath(w.rows, s);
      if found.None? then Move(w, pid, NotHeld(c))
      else if !w.rows.pool[found.value].HeldBy(s, c.incarnation, c.lease) then Move(w, pid, Settling(c, false))
      else Move(w, pid, Found(c, found.value))
    case Found(c, p) =>
      if p in w.disk then Move(w, pid, Recycling(c, p)) else Move(w, pid, Missing(c, p))
    case NotHeld(c) =>
      Move(w, pid, Settling(c, AlreadyReturned(w.rows, w.disk, c)))
    case Missing(c, p) =>
      Move(w, pid, Settling(c, CanRemove(w.rows, p, s, c.incarnation, c.lease)))
        .(rows := RemoveSlot(w.rows, p, s, c.incarnation, c.lease))
    case Recycling(c, p) =>
      if ok
      then Move(w, pid, Settling(c, CanFree(w.rows, p, s, c.incarnation, c.lease)))
             .(rows := FreeSlot(w.rows, p, s, c.incarnation, c.lease))
      else Move(w, pid, Settling(c, false))
    case Settling(c, done) =>
      End(w, pid, Settle(w.rows, s, c, done))
  }

  /** What the next step of release `q` does to the tables. */
  function RowsNext(rows: Rows, q: Process, ok: bool): Rows {
    match q.phase
    case Begun => if ok then RowsAfterClaim(rows, q.session) else rows
    case Claimed(c) => if ok then rows else EndClaim(rows, q.session, c.incarnation, Retained)
    case Missing(c, p) => RemoveSlot(rows, p, q.session, c.incarnation, c.lease)
    case Recycling(c, p) => if ok then FreeSlot(rows, p, q.session, c.incarnation, c.lease) else rows
    case Settling(c, done) => Settle(rows, q.session, c, done)
    case _ => rows
  }

  lemma AdvancedRows(w: World, pid: nat, ok: bool)
    requires pid in w.processes && w.rows.OneActivePerSession()
    ensures Advanced(w, pid, ok).rows == RowsNext(w.rows, w.processes[pid], ok)
  {
  }

  // ---------------------------------------------------------------- what leases do meanwhile

  /** The lease a re-filed worker takes along. */
  function LeaseToCarry(rows: Rows, s: SessionId): Option<Id>
    requires s in rows.workers && rows.OneActivePerSession()
  {
    var prior := rows.workers[s];
    var held := ActivePath(rows, s);
    if prior.lease.Some? then prior.lease
    else if held.Some? && rows.pool[held.value].owner == prior.incarnation then Some(rows.pool[held.value].lease)
    else None
  }

  predicate CanRefile(rows: Rows, s: SessionId)
    requires rows.OneActivePerSession()
  {
    !rows.Busy(s) && s != ""
    && (s in rows.workers ==>
      !rows.workers[s].state.Allocating? && !rows.workers[s].state.ReleaseClaimed?
      && (LeaseToCarry(rows, s).Some? ==> rows.SomeSlotHeldBy(s, rows.workers[s].incarnation, LeaseToCarry(rows, s))))
  }

  /** Hands the session's checkout to a new incarnation. */
  function Reowned(pool: map<Path, Slot>, s: SessionId, from: Id, l: Option<Id>, i: Id): map<Path, Slot> {
    map p | p in pool :: if pool[p].HeldBy(s, from, l) then pool[p].(owner := i) else pool[p]
  }

  function Refiled(rows: Rows, s: SessionId, i: Id, path: Path): Rows
    requires rows.OneActivePerSession()
  {
    if s !in rows.workers then rows.(workers := rows.workers[s := Worker(i, None, path, Allocating)])
    else
      var prior := rows.workers[s];
      var l := LeaseToCarry(rows, s);
      rows.(workers := rows.workers[s := Worker(i, l, prior.path, Allocating)],
            pool := Reowned(rows.pool, s, prior.incarnation, l, i))
  }

  predicate CanReserve(rows: Rows, s: SessionId, p: Path) {
    s in rows.workers && rows.workers[s].state.Allocating? && !rows.HasActive(s)
      && (p in rows.pool ==> rows.pool[p].state.Free?)
  }

  predicate CanProvision(rows: Rows, p: Path) {
    p in rows.pool && rows.pool[p].state.Provisioning? && rows.Is(rows.pool[p].session, rows.pool[p].owner, Allocating)
  }

  function Bound(rows: Rows, s: SessionId, path: Path): Rows
    requires s in rows.workers && rows.OneActivePerSession()
  {
    var held := ActivePath(rows, s);
    var w := rows.workers[s];
    var active := if held.Some? then w.(lease := Some(rows.pool[held.value].lease), path := held.value, state := Active)
                  else w.(lease := None, path := path, state := Active);
    rows.(workers := rows.workers[s := active])
  }

  predicate InState(rows: Rows, s: SessionId, state: WorkerState) {
    s in rows.workers && rows.workers[s].state == state
  }

  /** A runtime starts for an active or retained worker that still holds its lease. */
  predicate CanStart(rows: Rows, s: SessionId) {
    !rows.Busy(s) && (InState(rows, s, Active) || InState(rows, s, Retained)) && rows.KeepsLease(s)
  }

  /** A started runtime makes the worker active, if its state is still the one found before. */
  function Started(rows: Rows, s: SessionId, ok: bool): Rows
    requires s in rows.starting
  {
    var ended := rows.(starting := rows.starting - {s});
    if !ok then ended
    else if InState(rows, s, rows.starting[s]) then SetState(ended, s, Active)
    else rows
  }

  predicate Enabled(w: World, step: Step)
    requires w.rows.OneActivePerSession()
  {
    match step
    case Begin(pid, s) => pid !in w.processes && s in w.rows.workers
    case Advance(pid, _) => pid in w.processes
    case Crash(pid) => pid in w.processes
    case Refile(s, i, _) => i !in w.issued && CanRefile(w.rows, s)
    case Reserve(s, p, _) => CanReserve(w.rows, s, p)
    case Provision(p) => CanProvision(w.rows, p)
    case Bind(s, _) => InState(w.rows, s, Allocating)
    case Retain(s) => InState(w.rows, s, Active) && s !in w.rows.starting
    case StartRuntime(s) => CanStart(w.rows, s)
    case EndRuntime(s, _) => s in w.rows.starting
    case Finalize(_, _) => true
    case DiskIs(_) => true
  }

  /** One step; a step that is not enabled changes nothing. */
  function Do(w: World, step: Step): World
    requires w.rows.OneActivePerSession()
  {
    if !Enabled(w, step) then w
    else match step
      case Begin(pid, s) =>
        w.(processes := w.processes[pid := Process(s, None, Waiting(LockFor(w.rows, w.disk, s)))])
      case Advance(pid, ok) => Advanced(w, pid, ok)
      case Crash(pid) => w.(processes := w.processes - {pid})
      case Refile(s, i, path) => w.(rows := Refiled(w.rows, s, i, path), issued := w.issued[i := s])
      case Reserve(s, p, l) =>
        w.(rows := w.rows.(pool := w.rows.pool[p := Slot(Provisioning, s, w.rows.workers[s].incarnation, l)]))
      case Provision(p) => w.(rows := w.rows.(pool := w.rows.pool[p := w.rows.pool[p].(state := Leased)]))
      case Bind(s, path) => w.(rows := Bound(w.rows, s, path))
      case Retain(s) => w.(rows := SetState(w.rows, s, Retained))
      case StartRuntime(s) =>
        w.(rows := w.rows.(starting := w.rows.starting[s := w.rows.workers[s].state]))
      case EndRuntime(s, ok) => w.(rows := Started(w.rows, s, ok))
      case Finalize(s, begins) =>
        w.(rows := w.rows.(finalizing := if begins then w.rows.finalizing + {s} else w.rows.finalizing - {s}))
      case DiskIs(disk) => w.(disk := disk)
  }

  // ---------------------------------------------------------------- the invariant

  /** An active checkout belongs to the current incarnation of its session, which is not released and, once bound,
      holds exactly this lease. */
  predicate Backed(rows: Rows, p: Path)
    requires p in rows.pool
  {
    var slot := rows.pool[p];
    slot.IsActive() ==>
      slot.session in rows.workers
      && var w := rows.workers[slot.session];
         w.incarnation == slot.owner && !w.state.Released?
         && (!w.state.Allocating? ==> w.lease == Some(slot.lease) && w.path == p)
  }

  predicate HoldsNothing(rows: Rows, s: SessionId, i: Id) {
    forall p :: p in rows.pool && rows.pool[p].IsActive() ==> !(rows.pool[p].session == s && rows.pool[p].owner == i)
  }

  /** A release in flight works under a claim on an incarnation of its session; while that incarnation is current its
      lease and path are the claim's; and a release about to report success has left it nothing. */
  predicate Sound(w: World, p: Process) {
    p.phase.HasClaim() ==>
      var c := p.phase.claim;
      c.state.ReleaseClaimed?
      && c.incarnation in w.issued && w.issued[c.incarnation] == p.session
      && (p.session in w.rows.workers && w.rows.workers[p.session].incarnation == c.incarnation
          ==> !w.rows.workers[p.session].state.Allocating? && w.rows.workers[p.session].(state := ReleaseClaimed) == c)
      && (p.phase.NotHeld? || (p.phase.Settling? && p.phase.ok) ==> HoldsNothing(w.rows, p.session, c.incarnation))
  }

  predicate Issued(w: World) {
    forall s :: s in w.rows.workers ==>
                  s != "" && w.rows.workers[s].incarnation in w.issued && w.issued[w.rows.workers[s].incarnation] == s
  }

  predicate AllBacked(rows: Rows) {
    forall p :: p in rows.pool ==> Backed(rows, p)
  }

  predicate AllSound(w: World) {
    forall pid :: pid in w.processes ==> Sound(w, w.processes[pid])
  }

  /** While a runtime is being started its worker stays active or retained, as it was. */
  predicate StartsAreOrdinary(rows: Rows) {
    forall s :: s in rows.starting ==>
                  InState(rows, s, rows.starting[s]) && (rows.starting[s].Active? || rows.starting[s].Retained?)
  }

  predicate Inv(w: World) {
    w.rows.OneActivePerSession() && AllBacked(w.rows) && Issued(w) && AllSound(w) && StartsAreOrdinary(w.rows)
  }

  // ---------------------------------------------------------------- the steps keep the invariant

  /** Rows that differ only in the state of a row that stays unreleased back the same checkouts. */
  lemma StateChangeKeepsInv(w: World, s: SessionId, state: WorkerState)
    requires Inv(w) && s in w.rows.workers && s !in w.rows.starting
    requires !state.Allocating? && !w.rows.workers[s].state.Allocating?
    requires state.Released? ==> HoldsNothing(w.rows, s, w.rows.workers[s].incarnation)
    ensures Inv(w.(rows := SetState(w.rows, s, state)))
  {
    var v := w.(rows := SetState(w.rows, s, state));
    forall p | p in v.rows.pool ensures Backed(v.rows, p) {
      assert Backed(w.rows, p);
    }
    forall pid | pid in v.processes ensures Sound(v, v.processes[pid]) {
      assert Sound(w, w.processes[pid]);
    }
  }

  /** A release step that leaves its own phase sound keeps the rest. */
  lemma MoveKeepsInv(w: World, pid: nat, phase: Phase)
    requires Inv(w) && pid in w.processes && Sound(w, w.processes[pid].(phase := phase))
    ensures Inv(Move(w, pid, phase))
  {
    var v := Move(w, pid, phase);
    forall q | q in v.processes ensures Sound(v, v.processes[q]) {
      assert q != pid ==> Sound(w, w.processes[q]);
    }
  }

  lemma EndKeepsInv(w: World, pid: nat)
    requires Inv(w)
    ensures Inv(w.(processes := w.processes - {pid}))
  {
    var v := w.(processes := w.processes - {pid});
    forall q | q in v.processes ensures Sound(v, v.processes[q]) {
      assert Sound(w, w.processes[q]);
    }
  }

  /** Checkouts that become free, or go, leave the rest as it was. */
  lemma FewerCheckoutsKeepInv(w: World, rows: Rows)
    requires Inv(w) && rows.workers == w.rows.workers && rows.starting == w.rows.starting
    requires forall p :: p in rows.pool && rows.pool[p].IsActive() ==>
             p in w.rows.pool && w.rows.pool[p] == rows.pool[p]
    ensures Inv(w.(rows := rows))
  {
    var v := w.(rows := rows);
    forall p | p in rows.pool ensures Backed(rows, p) {
      assert p in w.rows.pool ==> Backed(w.rows, p);
    }
    forall pid | pid in v.processes ensures Sound(v, v.processes[pid]) {
      assert Sound(w, w.processes[pid]);
    }
  }

  lemma EndClaimKeepsInv(w: World, s: SessionId, i: Id, state: WorkerState)
    requires Inv(w) && (state.Retained? || (state.Released? && HoldsNothing(w.rows, s, i)))
    ensures Inv(w.(rows := EndClaim(w.rows, s, i, state)))
  {
    if w.rows.Is(s, i, ReleaseClaimed) {
      StateChangeKeepsInv(w, s, state);
    }
  }

  lemma BeginningKeepsInv(w: World, pid: nat, ok: bool)
    requires Inv(w) && pid in w.processes && w.processes[pid].phase.Begun?
    ensures Inv(Advanced(w, pid, ok))
  {
    var s := w.processes[pid].session;
    var claim := ClaimOf(w.rows, s);
    if !ok || claim.None? {
      EndKeepsInv(w, pid);
    } else {
      var rows := RowsAfterClaim(w.rows, s);
      if !w.rows.workers[s].state.ReleaseClaimed? {
        StateChangeKeepsInv(w, s, ReleaseClaimed);
      }
      var v := w.(rows := rows);
      assert Inv(v);
      MoveKeepsInv(v, pid, Claimed(claim.value));
    }
  }

  /** A release that finds nothing under its session leaves its incarnation nothing. */
  lemma LookingKeepsInv(w: World, pid: nat, ok: bool)
    requires Inv(w) && pid in w.processes
    requires var phase := w.processes[pid].phase; phase.Stopped? || phase.Found? || phase.NotHeld?
    ensures Inv(Advanced(w, pid, ok))
  {
    var q := w.processes[pid];
    assert Sound(w, q);
    if q.phase.Stopped? && ActivePath(w.rows, q.session).None? {
      assert HoldsNothing(w.rows, q.session, q.phase.claim.incarnation);
      MoveKeepsInv(w, pid, NotHeld(q.phase.claim));
    } else {
      var v := Advanced(w, pid, ok);
      MoveKeepsInv(w, pid, v.processes[pid].phase);
    }
  }

  lemma RemovalLeavesNothing(w: World, p: Path, s: SessionId, i: Id, l: Option<Id>)
    requires w.rows.OneActivePerSession()
    ensures CanRemove(w.rows, p, s, i, l) ==> HoldsNothing(RemoveSlot(w.rows, p, s, i, l), s, i)
    ensures CanFree(w.rows, p, s, i, l) ==> HoldsNothing(FreeSlot(w.rows, p, s, i, l), s, i)
  {
  }

  lemma TakingKeepsInv(w: World, pid: nat, ok: bool)
    requires Inv(w) && pid in w.processes && (w.processes[pid].phase.Missing? || w.processes[pid].phase.Recycling?)
    ensures Inv(Advanced(w, pid, ok))
  {
    var q := w.processes[pid];
    assert Sound(w, q);
    var (c, p, s) := (q.phase.claim, q.phase.path, q.session);
    RemovalLeavesNothing(w, p, s, c.incarnation, c.lease);
    var v := Advanced(w, pid, ok);
    FewerCheckoutsKeepInv(w, v.rows);
    var u := w.(rows := v.rows);
    assert Sound(u, q);
    MoveKeepsInv(u, pid, v.processes[pid].phase);
  }

  lemma EndingKeepsInv(w: World, pid: nat, ok: bool)
    requires Inv(w) && pid in w.processes && (w.processes[pid].phase.Claimed? || w.processes[pid].phase.Settling?)
    ensures Inv(Advanced(w, pid, ok))
  {
    var q := w.processes[pid];
    assert Sound(w, q);
    if q.phase.Claimed? && ok {
      MoveKeepsInv(w, pid, Stopped(q.phase.claim));
    } else {
      var state := if q.phase.Settling? && q.phase.ok then Released else Retained;
      EndClaimKeepsInv(w, q.session, q.phase.claim.incarnation, state);
      EndKeepsInv(w.(rows := EndClaim(w.rows, q.session, q.phase.claim.incarnation, state)), pid);
    }
  }

  lemma RefilingKeepsInv(w: World, s: SessionId, i: Id, path: Path)
    requires Inv(w) && i !in w.issued && CanRefile(w.rows, s)
    ensures Inv(w.(rows := Refiled(w.rows, s, i, path), issued := w.issued[i := s]))
  {
    var v := w.(rows := Refiled(w.rows, s, i, path), issued := w.issued[i := s]);
    forall p | p in v.rows.pool ensures Backed(v.rows, p) {
      assert Backed(w.rows, p);
    }
    forall pid | pid in v.processes ensures Sound(v, v.processes[pid]) {
      assert Sound(w, w.processes[pid]);
    }
  }

  lemma ReservingKeepsInv(w: World, s: SessionId, p: Path, l: Id)
    requires Inv(w) && CanReserve(w.rows, s, p)
    ensures Inv(Do(w, Reserve(s, p, l)))
  {
    var v := Do(w, Reserve(s, p, l));
    forall q | q in v.rows.pool ensures Backed(v.rows, q) {
      assert q != p ==> Backed(w.rows, q);
    }
    forall pid | pid in v.processes ensures Sound(v, v.processes[pid]) {
      assert Sound(w, w.processes[pid]);
    }
  }

  lemma ProvisioningKeepsInv(w: World, p: Path)
    requires Inv(w) && CanProvision(w.rows, p)
    ensures Inv(Do(w, Provision(p)))
  {
    var v := Do(w, Provision(p));
    forall q | q in v.rows.pool ensures Backed(v.rows, q) {
      assert Backed(w.rows, q);
    }
    forall pid | pid in v.processes ensures Sound(v, v.processes[pid]) {
      assert Sound(w, w.processes[pid]);
    }
  }

  lemma BindingKeepsInv(w: World, s: SessionId, path: Path)
    requires Inv(w) && InState(w.rows, s, Allocating)
    ensures Inv(Do(w, Bind(s, path)))
  {
    var v := Do(w, Bind(s, path));
    forall q | q in v.rows.pool ensures Backed(v.rows, q) {
      assert Backed(w.rows, q);
    }
    forall pid | pid in v.processes ensures Sound(v, v.processes[pid]) {
      assert Sound(w, w.processes[pid]);
    }
  }

  lemma WaitingKeepsInv(w: World, pid: nat, ok: bool)
    requires Inv(w) && pid in w.processes && w.processes[pid].phase.Waiting?
    ensures Inv(Advanced(w, pid, ok))
  {
    var v := Advanced(w, pid, ok);
    forall q | q in v.processes ensures Sound(v, v.processes[q]) {
      assert q != pid ==> Sound(w, w.processes[q]);
    }
  }

  lemma RuntimeKeepsInv(w: World, s: SessionId, ok: bool)
    requires Inv(w) && s in w.rows.starting
    ensures Inv(w.(rows := Started(w.rows, s, ok)))
  {
    var ended := w.(rows := w.rows.(starting := w.rows.starting - {s}));
    SameCheckoutsKeepInv(w, ended.rows);
    if ok && InState(w.rows, s, w.rows.starting[s]) {
      StateChangeKeepsInv(ended, s, Active);
    }
  }

  /** Starts and finalizations touch neither workers nor checkouts. */
  lemma SameCheckoutsKeepInv(w: World, rows: Rows)
    requires Inv(w) && rows.workers == w.rows.workers && rows.pool == w.rows.pool && StartsAreOrdinary(rows)
    ensures Inv(w.(rows := rows))
  {
    var v := w.(rows := rows);
    forall p | p in v.rows.pool ensures Backed(v.rows, p) {
      assert Backed(w.rows, p);
    }
    forall pid | pid in v.processes ensures Sound(v, v.processes[pid]) {
      assert Sound(w, w.processes[pid]);
    }
  }

  lemma StepKeepsInv(w: World, step: Step)
    requires Inv(w)
    ensures Inv(Do(w, step))
  {
    if Enabled(w, step) {
      match step
      case Begin(pid, s) =>
        var v := Do(w, step);
        forall q | q in v.processes ensures Sound(v, v.processes[q]) {
          assert q != pid ==> Sound(w, w.processes[q]);
        }
      case Advance(pid, ok) =>
        match w.processes[pid].phase {
          case Waiting(_) => WaitingKeepsInv(w, pid, ok);
          case Begun => BeginningKeepsInv(w, pid, ok);
          case Claimed(_) => EndingKeepsInv(w, pid, ok);
          case Settling(_, _) => EndingKeepsInv(w, pid, ok);
          case Missing(_, _) => TakingKeepsInv(w, pid, ok);
          case Recycling(_, _) => TakingKeepsInv(w, pid, ok);
          case _ => LookingKeepsInv(w, pid, ok);
        }
      case Crash(pid) => EndKeepsInv(w, pid);
      case Refile(s, i, path) => RefilingKeepsInv(w, s, i, path);
      case Reserve(s, p, l) => ReservingKeepsInv(w, s, p, l);
      case Provision(p) => ProvisioningKeepsInv(w, p);
      case Bind(s, path) => BindingKeepsInv(w, s, path);
      case Retain(s) => StateChangeKeepsInv(w, s, Retained);
      case StartRuntime(s) => SameCheckoutsKeepInv(w, Do(w, step).rows);
      case EndRuntime(s, ok) => RuntimeKeepsInv(w, s, ok);
      case Finalize(_, _) => SameCheckoutsKeepInv(w, Do(w, step).rows);
      case DiskIs(_) =>
        var v := Do(w, step);
        forall q | q in v.processes ensures Sound(v, v.processes[q]) {
          assert Sound(w, w.processes[q]);
        }
    }
  }

  /** The world after a run. */
  function After(w: World, steps: seq<Step>): (v: World)
    requires Inv(w)
    ensures Inv(v)
    decreases |steps|
  {
    if steps == [] then w
    else
      StepKeepsInv(w, steps[0]);
      After(Do(w, steps[0]), steps[1..])
  }

  lemma {:induction false} AfterConcat(w: World, xs: seq<Step>, ys: seq<Step>)
    requires Inv(w)
    ensures After(w, xs + ys) == After(After(w, xs), ys)
    decreases |xs|
  {
    if xs == [] {
      assert xs + ys == ys;
    } else {
      StepKeepsInv(w, xs[0]);
      assert (xs + ys)[1..] == xs[1..] + ys;
      AfterConcat(Do(w, xs[0]), xs[1..], ys);
    }
  }

  lemma EmptyIsSound()
    ensures Inv(EMPTY)
  {
  }

  // ---------------------------------------------------------------- nobody loses another incarnation's checkout

  /** However releases, crashes, re-leases and resumptions interleave, a released worker holds no checkout, and every
      active checkout belongs to the current incarnation of its session under the lease that incarnation is bound to. */
  lemma ReleasedWorkersHoldNothing(steps: seq<Step>, s: SessionId)
    ensures Inv(EMPTY)
    ensures var rows := After(EMPTY, steps).rows;
            InState(rows, s, Released) ==> !rows.HasActive(s)
    ensures var rows := After(EMPTY, steps).rows;
            forall p :: p in rows.pool && rows.pool[p].IsActive() && rows.pool[p].session == s
              ==> s in rows.workers && rows.workers[s].incarnation == rows.pool[p].owner
                  && (!rows.workers[s].state.Allocating? ==>
                      rows.pool[p].HeldBy(s, rows.workers[s].incarnation, rows.workers[s].lease))
  {
    var rows := After(EMPTY, steps).rows;
    forall p | p in rows.pool ensures Backed(rows, p) {
    }
  }

  predicate HeldAt(w: World, p: Path, s: SessionId, i: Id, l: Id) {
    p in w.rows.pool && w.rows.pool[p].HeldBy(s, i, Some(l))
  }

  /** The step that may end a lease: its own session re-filed, or a release of that very incarnation and lease. */
  predicate MayEndLease(w: World, step: Step, p: Path, s: SessionId, i: Id, l: Id) {
    match step
    case Refile(t, _, _) => t == s
    case Advance(pid, _) =>
      pid in w.processes
      && var q := w.processes[pid];
         q.session == s && (q.phase.Missing? || q.phase.Recycling?)
         && q.phase.path == p && q.phase.claim.incarnation == i && q.phase.claim.lease == Some(l)
    case _ => false
  }

  lemma AdvanceKeepsLease(w: World, pid: nat, ok: bool, p: Path, s: SessionId, i: Id, l: Id)
    requires Inv(w) && HeldAt(w, p, s, i, l) && pid in w.processes && !MayEndLease(w, Advance(pid, ok), p, s, i, l)
    ensures HeldAt(Advanced(w, pid, ok), p, s, i, l)
  {
    var q := w.processes[pid];
    if !q.phase.Missing? && !q.phase.Recycling? {
      AdvanceKeepsPool(w, pid, ok);
    }
  }

  lemma AdvanceKeepsPool(w: World, pid: nat, ok: bool)
    requires Inv(w) && pid in w.processes && !w.processes[pid].phase.Missing? && !w.processes[pid].phase.Recycling?
    ensures Advanced(w, pid, ok).rows.pool == w.rows.pool
  {
    AdvancedRows(w, pid, ok);
  }

  lemma StepKeepsLease(w: World, step: Step, p: Path, s: SessionId, i: Id, l: Id)
    requires Inv(w) && HeldAt(w, p, s, i, l) && !MayEndLease(w, step, p, s, i, l)
    ensures HeldAt(Do(w, step), p, s, i, l)
  {
    if step.Advance? {
      if step.pid in w.processes {
        AdvanceKeepsLease(w, step.pid, step.ok, p, s, i, l);
      }
    }
  }

  /** In every run, a lease that is gone was ended by re-filing its own session or by a release working under a claim
      on exactly that session, incarnation and lease. */
  lemma {:induction false} OnlyItsOwnReleaseEndsALease(w: World, steps: seq<Step>, p: Path, s: SessionId, i: Id, l: Id)
    requires Inv(w) && HeldAt(w, p, s, i, l) && !HeldAt(After(w, steps), p, s, i, l)
    ensures exists k :: 0 <= k < |steps| && HeldAt(After(w, steps[..k]), p, s, i, l)
                        && MayEndLease(After(w, steps[..k]), steps[k], p, s, i, l)
    decreases |steps|
  {
    if MayEndLease(w, steps[0], p, s, i, l) {
      assert After(w, steps[..0]) == w;
    } else {
      StepKeepsLease(w, steps[0], p, s, i, l);
      StepKeepsInv(w, steps[0]);
      var v := Do(w, steps[0]);
      OnlyItsOwnReleaseEndsALease(v, steps[1..], p, s, i, l);
      var k :| 0 <= k < |steps| - 1 && HeldAt(After(v, steps[1..][..k]), p, s, i, l)
               && MayEndLease(After(v, steps[1..][..k]), steps[1..][k], p, s, i, l);
      assert steps[..k + 1][1..] == steps[1..][..k] && steps[..k + 1][0] == steps[0];
      assert After(w, steps[..k + 1]) == After(v, steps[1..][..k]);
    }
  }
}
