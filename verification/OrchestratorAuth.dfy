/** Authorizing the callers of orchestrator commands: the first caller's runtime is registered, later callers are
    compared with it. A call looks the registration up and later registers or compares; other calls may come between,
    and so may a spawn, which overwrites the registration, or a removal, which deletes it. */
module OrchestratorAuth {
  import opened NinoxTypes

  type Id = SessionId

  datatype Pane = Pane(serverEpoch: string, tmuxName: string, paneId: string, pid: nat, createdAt: int)

  datatype Identity = Identity(
    id: Id, serverEpoch: string, tmuxName: string, paneId: string, rootPid: nat, rootCreatedAt: int, registeredAt: int)

  /** `ancestors` are the processes that the caller descends from. */
  datatype Request = Request(id: Option<Id>, callerType: Option<string>, pane: Option<Pane>, ancestors: set<nat>)

  datatype Refusal = NoId | NotAnOrchestratorCaller | NoPane | NotPersisted | NotRegistered | OtherRuntime

  datatype Verdict = Authorized(id: Id) | Refused(why: Refusal)

  /** The store: registered runtimes, the orchestrators, and the process of every session that has one. */
  datatype Registry = Registry(runtimes: map<Id, Identity>, orchestrators: set<Id>, pids: map<Id, nat>)

  const TOLERANCE_MS := 2000

  function Abs(x: int): nat {
    if x < 0 then -x else x
  }

  function Candidate(id: Id, pane: Pane, now: int): Identity {
    Identity(id, pane.serverEpoch, pane.tmuxName, pane.paneId, pane.pid, pane.createdAt, now)
  }

  /** The store registers only an orchestrator's own session process, under its own name, and only once. */
  predicate Eligible(r: Registry, runtime: Identity) {
    runtime.id in r.orchestrators && runtime.id in r.pids && r.pids[runtime.id] == runtime.rootPid
    && runtime.id !in r.runtimes && runtime.tmuxName == runtime.id
  }

  function Register(r: Registry, runtime: Identity): Registry {
    if Eligible(r, runtime) then r.(runtimes := r.runtimes[runtime.id := runtime]) else r
  }

  predicate Matches(runtime: Identity, pane: Pane) {
    runtime.serverEpoch == pane.serverEpoch && runtime.tmuxName == pane.tmuxName && runtime.paneId == pane.paneId
    && runtime.rootPid == pane.pid && Abs(runtime.rootCreatedAt - pane.createdAt) <= TOLERANCE_MS
  }

  /** Why a request is refused before the registration is looked at. */
  function Screen(orchestrators: set<Id>, q: Request): Option<Refusal> {
    if q.id.None? || q.id.value == "" then Some(NoId)
    else if q.callerType != Some("orchestrator") then Some(NotAnOrchestratorCaller)
    else if q.pane.None? then Some(NoPane)
    else if q.id.value !in orchestrators then Some(NotPersisted)
    else None
  }

  /** The request names an orchestrator and comes from a pane. */
  predicate Screened(q: Request) {
    q.id.Some? && q.pane.Some?
  }

  function LookUp(r: Registry, id: Id): Option<Identity> {
    if id in r.runtimes then Some(r.runtimes[id]) else None
  }

  /** A caller in its own orchestrator's pane registers that pane if nothing was registered when it looked. */
  predicate Registers(q: Request, looked: Option<Identity>)
    requires Screened(q)
  {
    looked.None? && q.pane.value.tmuxName == q.id.value && q.pane.value.pid in q.ancestors
  }

  /** The runtime that a call is compared with: the one it found, or the one it registers itself. */
  function Compared(r: Registry, q: Request, looked: Option<Identity>, now: int): Option<Identity>
    requires Screened(q)
  {
    var own := Candidate(q.id.value, q.pane.value, now);
    if Registers(q, looked) && Eligible(r, own) then Some(own) else looked
  }

  /** The rest of a call whose look-up is behind it. */
  function Conclude(r: Registry, q: Request, looked: Option<Identity>, now: int): (Registry, Verdict)
    requires Screened(q)
  {
    var runtime := Compared(r, q, looked, now);
    (if Registers(q, looked) then Register(r, Candidate(q.id.value, q.pane.value, now)) else r,
     if runtime.None? then Refused(NotRegistered)
     else if Matches(runtime.value, q.pane.value) && runtime.value.rootPid in q.ancestors then Authorized(q.id.value)
     else Refused(OtherRuntime))
  }

  /** A call with nothing in between. */
  function Authorize(r: Registry, q: Request, now: int): (Registry, Verdict) {
    var refusal := Screen(r.orchestrators, q);
    if refusal.Some? then (r, Refused(refusal.value)) else Conclude(r, q, LookUp(r, q.id.value), now)
  }

  /** The store's table of runtimes, updated in place. */
  class Store {
    var registry: Registry

    constructor (r: Registry)
      ensures registry == r
    {
      registry := r;
    }

    method RegisterMigrated(runtime: Identity) returns (changed: bool)
      modifies this
      ensures registry == Register(old(registry), runtime) && changed == Eligible(old(registry), runtime)
    {
      changed := Eligible(registry, runtime);
      if changed {
        registry := registry.(runtimes := registry.runtimes[runtime.id := runtime]);
      }
    }
  }

  method AuthorizeOrchestrator(store: Store, q: Request, now: int) returns (verdict: Verdict)
    modifies store
    ensures (store.registry, verdict) == Authorize(old(store.registry), q, now)
  {
    if q.id.None? || q.id.value == "" {
      return Refused(NoId);
    }
    if q.callerType != Some("orchestrator") {
      return Refused(NotAnOrchestratorCaller);
    }
    if q.pane.None? {
      return Refused(NoPane);
    }
    var id, pane := q.id.value, q.pane.value;
    if id !in store.registry.orchestrators {
      return Refused(NotPersisted);
    }
    var persisted := LookUp(store.registry, id);
    if persisted.None? && pane.tmuxName == id && pane.pid in q.ancestors {
      var migrated := Candidate(id, pane, now);
      var changed := store.RegisterMigrated(migrated);
      if changed {
        persisted := Some(migrated);
      }
    }
    if persisted.None? {
      return Refused(NotRegistered);
    }
    if Matches(persisted.value, pane) && persisted.value.rootPid in q.ancestors {
      return Authorized(id);
    }
    return Refused(OtherRuntime);
  }

  // ---------------------------------------------------------------- exactly who is authorized

  /** The pane is the runtime's, by everything that tmux tells and the operating system confirms. */
  predicate IsTheRuntime(runtime: Identity, pane: Pane) {
    pane.serverEpoch == runtime.serverEpoch && pane.tmuxName == runtime.tmuxName && pane.paneId == runtime.paneId
    && pane.pid == runtime.rootPid && -2000 <= pane.createdAt - runtime.rootCreatedAt <= 2000
  }

  /** The caller sits in the pane that is named after the orchestrator and runs the process on record for it. */
  predicate SitsInItsOwnPane(pids: map<Id, nat>, id: Id, pane: Pane) {
    pane.tmuxName == id && id in pids && pids[id] == pane.pid
  }

  /** A call is authorized exactly when an orchestrator caller names a persisted orchestrator, descends from the pane's
      process, and the pane is that of the registered runtime or, with none registered, the orchestrator's own. It is
      authorized as the orchestrator that it names; and it leaves that runtime registered, and all else as it was. */
  lemma AuthorizedExactly(r: Registry, q: Request, now: int)
    ensures var (after, verdict) := Authorize(r, q, now);
            (verdict.Authorized? <==>
               q.callerType == Some("orchestrator") && q.id.Some? && q.id.value != "" && q.id.value in r.orchestrators
               && q.pane.Some? && q.pane.value.pid in q.ancestors
               && if q.id.value in r.runtimes then IsTheRuntime(r.runtimes[q.id.value], q.pane.value)
                  else SitsInItsOwnPane(r.pids, q.id.value, q.pane.value))
            && (verdict.Authorized? ==> verdict.id == q.id.value)
            && after.orchestrators == r.orchestrators && after.pids == r.pids
            && (forall id :: id in after.runtimes <==>
                  id in r.runtimes || (verdict.Authorized? && id == verdict.id))
            && (forall id :: id in r.runtimes ==> after.runtimes[id] == r.runtimes[id])
            && (verdict.Authorized? ==>
                  IsTheRuntime(after.runtimes[verdict.id], q.pane.value)
                  && (verdict.id !in r.runtimes ==>
                        after.runtimes[verdict.id].rootCreatedAt == q.pane.value.createdAt
                        && after.runtimes[verdict.id].id == verdict.id
                        && after.runtimes[verdict.id].registeredAt == now))
  {
  }

  /** Which refusal a call gets: the first of the reasons, in this order, that applies. */
  lemma RefusedExactly(r: Registry, q: Request, now: int)
    ensures var verdict := Authorize(r, q, now).1;
            var (noId, noCaller) := (q.id.None? || q.id.value == "", q.callerType != Some("orchestrator"));
            (verdict == Refused(NoId) <==> noId)
            && (verdict == Refused(NotAnOrchestratorCaller) <==> !noId && noCaller)
            && (verdict == Refused(NoPane) <==> !noId && !noCaller && q.pane.None?)
            && (verdict == Refused(NotPersisted) <==>
                  !noId && !noCaller && q.pane.Some? && q.id.value !in r.orchestrators)
            && (verdict == Refused(NotRegistered) <==>
                  !noId && !noCaller && q.pane.Some? && q.id.value in r.orchestrators && q.id.value !in r.runtimes
                  && !(SitsInItsOwnPane(r.pids, q.id.value, q.pane.value) && q.pane.value.pid in q.ancestors))
            && (verdict == Refused(OtherRuntime) <==>
                  !noId && !noCaller && q.pane.Some? && q.id.value in r.orchestrators && q.id.value in r.runtimes
                  && !(IsTheRuntime(r.runtimes[q.id.value], q.pane.value) && q.pane.value.pid in q.ancestors))
  {
  }

  // ---------------------------------------------------------------- runs

  datatype Call = Call(request: Request, looked: Option<Identity>)

  /** An authorized call, with the runtime that it matched. */
  datatype Grant = Grant(id: Id, request: Request, runtime: Identity)

  datatype World = World(registry: Registry, calls: map<nat, Call>, grants: seq<Grant>)

  /** A call looks up, or concludes; the orchestrators and session processes change; or a spawn or a removal writes
      the registration itself. */
  datatype Step =
    | Look(call: nat, request: Request)
    | Finish(call: nat, now: int)
    | FleetIs(orchestrators: set<Id>, pids: map<Id, nat>)
    | Write(id: Id, runtime: Option<Identity>)

  predicate AllScreened(calls: map<nat, Call>) {
    forall c :: c in calls ==> Screened(calls[c].request)
  }

  function Do(w: World, step: Step): (v: World)
    requires AllScreened(w.calls)
    ensures AllScreened(v.calls)
  {
    match step
    case Look(c, q) =>
      if c in w.calls || Screen(w.registry.orchestrators, q).Some? then w
      else w.(calls := w.calls[c := Call(q, LookUp(w.registry, q.id.value))])
    case Finish(c, now) =>
      if c !in w.calls then w
      else
        var q := w.calls[c].request;
        var (registry, verdict) := Conclude(w.registry, q, w.calls[c].looked, now);
        var granted :=
          if verdict.Authorized?
          then [Grant(q.id.value, q, Compared(w.registry, q, w.calls[c].looked, now).value)] else [];
        World(registry, w.calls - {c}, w.grants + granted)
    case FleetIs(orchestrators, pids) =>
      w.(registry := w.registry.(orchestrators := orchestrators, pids := pids))
    case Write(id, runtime) =>
      w.(registry := w.registry.(
           runtimes := if runtime.Some? then w.registry.runtimes[id := runtime.value] else w.registry.runtimes - {id}))
  }

  function After(w: World, steps: seq<Step>): (v: World)
    requires AllScreened(w.calls)
    ensures AllScreened(v.calls)
    decreases |steps|
  {
    if steps == [] then w else After(Do(w, steps[0]), steps[1..])
  }

  /** Nobody spawns or removes this orchestrator. */
  predicate Undisturbed(steps: seq<Step>, id: Id) {
    forall k :: 0 <= k < |steps| && steps[k].Write? ==> steps[k].id != id
  }

  predicate Registered(r: Registry, id: Id, runtime: Identity) {
    id in r.runtimes && r.runtimes[id] == runtime
  }

  /** What a call for `id` has looked up is still what is registered, and everyone authorized for `id` after the first
      `n` grants matches what is registered. */
  predicate Steady(w: World, id: Id, n: nat) {
    AllScreened(w.calls) && n <= |w.grants|
    && (forall c :: c in w.calls && w.calls[c].request.id.value == id && w.calls[c].looked.Some?
          ==> Registered(w.registry, id, w.calls[c].looked.value))
    && forall i :: n <= i < |w.grants| && w.grants[i].id == id
         ==> w.grants[i].request.pane.Some?
             && id in w.registry.runtimes && Matches(w.registry.runtimes[id], w.grants[i].request.pane.value)
  }

  lemma StepKeepsSteady(w: World, step: Step, id: Id, n: nat)
    requires Steady(w, id, n) && !(step.Write? && step.id == id)
    ensures Steady(Do(w, step), id, n)
    ensures id in w.registry.runtimes ==> Registered(Do(w, step).registry, id, w.registry.runtimes[id])
  {
  }

  lemma {:induction false} RunKeepsSteady(w: World, steps: seq<Step>, id: Id, n: nat)
    requires Steady(w, id, n) && Undisturbed(steps, id)
    ensures Steady(After(w, steps), id, n)
    ensures id in w.registry.runtimes ==> Registered(After(w, steps).registry, id, w.registry.runtimes[id])
    decreases |steps|
  {
    if steps != [] {
      StepKeepsSteady(w, steps[0], id, n);
      RunKeepsSteady(Do(w, steps[0]), steps[1..], id, n);
    }
  }

  /** No call for `id` is on its way. */
  predicate Idle(w: World, id: Id) {
    AllScreened(w.calls) && forall c :: c in w.calls ==> w.calls[c].request.id.value != id
  }

  /** From any moment at which no call for an orchestrator is on its way, for as long as it is neither spawned nor
      removed, and however calls interleave and the fleet changes: all callers authorized for it run in the same pane
      and process of the same server, created at most four seconds apart, and its registration, once there, never
      changes. */
  lemma AuthorizedCallersShareOneRuntime(w: World, steps: seq<Step>, id: Id, i: nat, j: nat)
    requires Idle(w, id) && Undisturbed(steps, id)
    requires |w.grants| <= i < |After(w, steps).grants| && |w.grants| <= j < |After(w, steps).grants|
    requires After(w, steps).grants[i].id == id && After(w, steps).grants[j].id == id
    ensures var (p, q) := (After(w, steps).grants[i].request.pane, After(w, steps).grants[j].request.pane);
            p.Some? && q.Some? && var (a, b) := (p.value, q.value);
            a.serverEpoch == b.serverEpoch && a.tmuxName == b.tmuxName && a.paneId == b.paneId && a.pid == b.pid
            && -4000 <= a.createdAt - b.createdAt <= 4000
    ensures id in w.registry.runtimes ==> Registered(After(w, steps).registry, id, w.registry.runtimes[id])
  {
    RunKeepsSteady(w, steps, id, |w.grants|);
  }

  /** Of two calls for one orchestrator that both found nothing registered, if one is authorized the other is
      refused. */
  lemma OnlyOneCallRegisters(w: World, c: nat, d: nat, between: seq<Step>, now: int, later: int)
    requires AllScreened(w.calls) && c in w.calls && d in w.calls && c != d
    requires w.calls[c].looked.None? && w.calls[d].looked.None? && w.calls[c].request.id == w.calls[d].request.id
    requires Do(w, Finish(c, now)).grants != w.grants
    requires Undisturbed(between, w.calls[c].request.id.value) && Finishes(between, d) == 0
    ensures var v := After(Do(w, Finish(c, now)), between);
            Do(v, Finish(d, later)).grants == v.grants
  {
    var v := Do(w, Finish(c, now));
    WaitingCallStays(v, between, d);
  }

  function Finishes(steps: seq<Step>, c: nat): nat {
    if steps == [] then 0 else (if steps[0].Finish? && steps[0].call == c then 1 else 0) + Finishes(steps[1..], c)
  }

  /** Until it concludes, a call keeps what it looked up, and a registration stays. */
  lemma {:induction false} WaitingCallStays(w: World, steps: seq<Step>, d: nat)
    requires AllScreened(w.calls) && d in w.calls && Finishes(steps, d) == 0
    requires Undisturbed(steps, w.calls[d].request.id.value)
    ensures d in After(w, steps).calls && After(w, steps).calls[d] == w.calls[d]
    ensures w.calls[d].request.id.value in w.registry.runtimes ==>
            w.calls[d].request.id.value in After(w, steps).registry.runtimes
    decreases |steps|
  {
    if steps != [] {
      assert d in Do(w, steps[0]).calls && Do(w, steps[0]).calls[d] == w.calls[d];
      WaitingCallStays(Do(w, steps[0]), steps[1..], d);
    }
  }

  // ---------------------------------------------------------------- every grant is earned

  lemma FinishingConcludes(w: World, c: nat, now: int)
    requires AllScreened(w.calls) && c in w.calls
    ensures var (q, v) := (w.calls[c].request, Do(w, Finish(c, now)));
            var (registry, verdict) := Conclude(w.registry, q, w.calls[c].looked, now);
            v.registry == registry && v.calls == w.calls - {c}
            && if verdict.Authorized?
               then v.grants
                 == w.grants + [Grant(q.id.value, q, Compared(w.registry, q, w.calls[c].looked, now).value)]
               else v.grants == w.grants
  {
    assert w.grants + [] == w.grants;
  }

  /** A call that nothing comes between is the authorization. */
  lemma UninterruptedCallsAuthorize(w: World, c: nat, q: Request, now: int)
    requires AllScreened(w.calls) && c !in w.calls
    ensures var v := Do(Do(w, Look(c, q)), Finish(c, now));
            var (registry, verdict) := Authorize(w.registry, q, now);
            v.registry == registry && v.calls == w.calls
            && if verdict.Authorized?
               then |v.grants| == |w.grants| + 1 && v.grants[..|w.grants|] == w.grants
                    && v.grants[|w.grants|].id == verdict.id && v.grants[|w.grants|].request == q
               else v.grants == w.grants
  {
    var u := Do(w, Look(c, q));
    if Screen(w.registry.orchestrators, q).Some? {
      assert u == w;
    } else {
      assert u.calls == w.calls[c := Call(q, LookUp(w.registry, q.id.value))] && u.calls - {c} == w.calls;
      FinishingConcludes(u, c, now);
    }
  }

  /** At some point of the run `id` was an orchestrator, and `runtime` was registered for it. */
  ghost predicate SeenIn(w: World, steps: seq<Step>, id: Id, runtime: Identity)
    requires AllScreened(w.calls)
  {
    exists k :: 0 <= k <= |steps| && Registered(After(w, steps[..k]).registry, id, runtime)
  }

  ghost predicate OrchestratorIn(w: World, steps: seq<Step>, id: Id)
    requires AllScreened(w.calls)
  {
    exists k :: 0 <= k <= |steps| && id in After(w, steps[..k]).registry.orchestrators
  }

  predicate FromOrchestrator(q: Request, id: Id) {
    q.id == Some(id) && q.callerType == Some("orchestrator")
  }

  /** The caller said it was orchestrator `g.id`, which was one, and sat in the pane of the runtime that was registered
      for it, descending from that runtime's process. */
  ghost predicate Earned(w: World, steps: seq<Step>, g: Grant)
    requires AllScreened(w.calls)
  {
    FromOrchestrator(g.request, g.id) && OrchestratorIn(w, steps, g.id) && SeenIn(w, steps, g.id, g.runtime)
    && g.request.pane.Some? && IsTheRuntime(g.runtime, g.request.pane.value)
    && g.runtime.rootPid in g.request.ancestors
  }

  ghost predicate CallIsKnown(w: World, steps: seq<Step>, call: Call)
    requires AllScreened(w.calls) && Screened(call.request)
  {
    FromOrchestrator(call.request, call.request.id.value) && OrchestratorIn(w, steps, call.request.id.value)
    && (call.looked.Some? ==> SeenIn(w, steps, call.request.id.value, call.looked.value))
  }

  lemma {:induction false} AfterSnoc(w: World, steps: seq<Step>, step: Step)
    requires AllScreened(w.calls)
    ensures After(w, steps + [step]) == Do(After(w, steps), step)
    decreases |steps|
  {
    if steps == [] {
      assert steps + [step] == [step] && [step][1..] == [];
    } else {
      assert (steps + [step])[1..] == steps[1..] + [step];
      AfterSnoc(Do(w, steps[0]), steps[1..], step);
    }
  }

  /** What was seen stays seen, and what is there now is seen. */
  lemma SeenStaysSeen(w: World, steps: seq<Step>, step: Step, id: Id, runtime: Identity)
    requires AllScreened(w.calls)
    ensures SeenIn(w, steps, id, runtime) ==> SeenIn(w, steps + [step], id, runtime)
    ensures OrchestratorIn(w, steps, id) ==> OrchestratorIn(w, steps + [step], id)
    ensures Registered(After(w, steps + [step]).registry, id, runtime) ==> SeenIn(w, steps + [step], id, runtime)
    ensures Registered(After(w, steps).registry, id, runtime) ==> SeenIn(w, steps + [step], id, runtime)
    ensures id in After(w, steps).registry.orchestrators ==> OrchestratorIn(w, steps + [step], id)
  {
    var more := steps + [step];
    assert more[..|more|] == more && more[..|steps|] == steps;
    assert forall k :: 0 <= k <= |steps| ==> more[..k] == steps[..k];
  }

  lemma CallsStayKnown(w: World, steps: seq<Step>, step: Step, c: nat)
    requires AllScreened(w.calls) && c in Do(After(w, steps), step).calls
    requires c in After(w, steps).calls ==> CallIsKnown(w, steps, After(w, steps).calls[c])
    ensures CallIsKnown(w, steps + [step], Do(After(w, steps), step).calls[c])
  {
    var (u, call) := (After(w, steps), Do(After(w, steps), step).calls[c]);
    var id := call.request.id.value;
    SeenStaysSeen(w, steps, step, id, if call.looked.Some? then call.looked.value else Candidate(id, NO_PANE, 0));
    if c !in u.calls {
      assert step == Look(c, call.request);
    }
  }

  const NO_PANE := Pane("", "", "", 0, 0)

  lemma NewGrantIsEarned(w: World, steps: seq<Step>, step: Step)
    requires AllScreened(w.calls) && |Do(After(w, steps), step).grants| > |After(w, steps).grants|
    requires forall c :: c in After(w, steps).calls ==> CallIsKnown(w, steps, After(w, steps).calls[c])
    ensures var u := After(w, steps);
            Do(u, step).grants[..|u.grants|] == u.grants && |Do(u, step).grants| == |u.grants| + 1
            && Earned(w, steps + [step], Do(u, step).grants[|u.grants|])
  {
    var (u, v) := (After(w, steps), Do(After(w, steps), step));
    var g := v.grants[|u.grants|];
    AfterSnoc(w, steps, step);
    assert CallIsKnown(w, steps, u.calls[step.call]);
    SeenStaysSeen(w, steps, step, g.id, g.runtime);
  }

  lemma EarnedStaysEarned(w: World, steps: seq<Step>, step: Step, g: Grant)
    requires AllScreened(w.calls) && Earned(w, steps, g)
    ensures Earned(w, steps + [step], g)
  {
    SeenStaysSeen(w, steps, step, g.id, g.runtime);
  }

  lemma {:induction false} CallsAreKnown(w: World, steps: seq<Step>)
    requires w.calls == map[]
    ensures forall c :: c in After(w, steps).calls ==> CallIsKnown(w, steps, After(w, steps).calls[c])
    decreases |steps|
  {
    if steps != [] {
      var front, step := steps[..|steps| - 1], steps[|steps| - 1];
      assert steps == front + [step];
      CallsAreKnown(w, front);
      AfterSnoc(w, front, step);
      forall c | c in After(w, steps).calls ensures CallIsKnown(w, steps, After(w, steps).calls[c]) {
        CallsStayKnown(w, front, step, c);
      }
    }
  }

  /** However calls, spawns and removals interleave, whoever is authorized said to be an orchestrator that was one, in
      the pane of a runtime that was registered for it, and descended from that runtime's process. */
  lemma {:induction false} EveryGrantIsEarned(w: World, steps: seq<Step>, i: nat)
    requires w.calls == map[] && |w.grants| <= i < |After(w, steps).grants|
    ensures Earned(w, steps, After(w, steps).grants[i])
    decreases |steps|
  {
    assert steps != [];
    var front, step := steps[..|steps| - 1], steps[|steps| - 1];
    assert steps == front + [step];
    AfterSnoc(w, front, step);
    CallsAreKnown(w, front);
    var u := After(w, front);
    if |Do(u, step).grants| > |u.grants| {
      NewGrantIsEarned(w, front, step);
    } else {
      assert Do(u, step).grants == u.grants;
    }
    if i < |u.grants| {
      EveryGrantIsEarned(w, front, i);
      EarnedStaysEarned(w, front, step, u.grants[i]);
    }
  }

  // ---------------------------------------------------------------- why a spawn ends the agreement

  function PaneOf(runtime: Identity): Pane {
    Pane(runtime.serverEpoch, runtime.tmuxName, runtime.paneId, runtime.rootPid, runtime.rootCreatedAt)
  }

  function CallFrom(id: Id, runtime: Identity): Request {
    Request(Some(id), Some("orchestrator"), Some(PaneOf(runtime)), {runtime.rootPid})
  }

  /** The world after a call from start to end. */
  function Called(w: World, q: Request): World
    requires AllScreened(w.calls)
  {
    Do(Do(w, Look(0, q)), Finish(0, 0))
  }

  /** A spawn, and a call from the runtime that it registered. */
  lemma SpawnedRuntimeIsAuthorized(w: World, id: Id, runtime: Identity)
    requires w.calls == map[] && id != "" && id in w.registry.orchestrators
    ensures var v := Called(Do(w, Write(id, Some(runtime))), CallFrom(id, runtime));
            v.calls == map[] && v.registry.orchestrators == w.registry.orchestrators
            && |v.grants| == |w.grants| + 1 && v.grants[..|w.grants|] == w.grants
            && v.grants[|w.grants|].request == CallFrom(id, runtime)
  {
    var u := Do(w, Write(id, Some(runtime)));
    UninterruptedCallsAuthorize(u, 0, CallFrom(id, runtime), 0);
    AuthorizedExactly(u.registry, CallFrom(id, runtime), 0);
  }

  /** Two callers of one orchestrator with a spawn in between need not agree in anything. */
  lemma ASpawnSplitsCallers(id: Id, a: Identity, b: Identity)
    requires id != ""
    ensures var w := Do(World(Registry(map[], {}, map[]), map[], []), FleetIs({id}, map[]));
            var v := Called(Do(w, Write(id, Some(a))), CallFrom(id, a));
            var u := Called(Do(v, Write(id, Some(b))), CallFrom(id, b));
            |u.grants| == 2 && u.grants[0].request.pane == Some(PaneOf(a))
            && u.grants[1].request.pane == Some(PaneOf(b))
  {
    var w := Do(World(Registry(map[], {}, map[]), map[], []), FleetIs({id}, map[]));
    SpawnedRuntimeIsAuthorized(w, id, a);
    var v := Called(Do(w, Write(id, Some(a))), CallFrom(id, a));
    SpawnedRuntimeIsAuthorized(v, id, b);
    var u := Called(Do(v, Write(id, Some(b))), CallFrom(id, b));
    assert u.grants[..1][0] == u.grants[0];
  }
}
