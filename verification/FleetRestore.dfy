/** `ninox fleet restore`: relaunch the workers, brief them, relaunch the orchestrators, deliver their recovery
    briefings. A run leaves a log of its effects in order, so a run that crashes has left a prefix of the log. */
module FleetRestore {
  import opened NinoxTypes
  import opened Sequences

  type Id = SessionId

  datatype Role = Orchestrator | Worker | Standalone

  /** A session that awaits restore is down; an anomaly may block it. */
  datatype Life = Live | Down | Awaiting(blocked: bool)

  /** `owner` is the session's orchestrator; `resumed` says that a worker has a restore to be told about. */
  datatype Member = Member(id: Id, role: Role, life: Life, owner: Option<Id>, resumed: bool, pendingInbox: nat)

  datatype Outcome = Resumed | Fresh | AlreadyLive | Failed

  /** For every recovery that was begun, whether its briefing was sent. */
  type Recoveries = map<Id, bool>

  datatype Effect =
    | Relaunched(id: Id, outcome: Outcome)
    | Recorded(id: Id, outcome: Outcome)
    | Began(id: Id)
    | Briefed(id: Id)
    | BriefingFailed(id: Id)
    | MarkedSent(id: Id)
    | MarkedListed(id: Id)
    | Nudged(id: Id)

  /** What a run meets: the fleet at its three snapshots, how launches turn out, which deliveries succeed. */
  datatype Env = Env(
    first: seq<Member>, second: seq<Member>, third: seq<Member>,
    launch: Id -> Outcome, toWorker: Id -> bool, toOrchestrator: Id -> bool)

  function Find(members: seq<Member>, id: Id): (m: Option<Member>)
    ensures m.Some? ==> m.value in members && m.value.id == id
    ensures m.None? ==> forall x :: x in members ==> x.id != id
  {
    if members == [] then None
    else if members[0].id == id then Some(members[0])
    else Find(members[1..], id)
  }

  predicate IsLive(members: seq<Member>, id: Id) {
    Find(members, id).Some? && Find(members, id).value.life.Live?
  }

  predicate HasBriefing(members: seq<Member>, id: Id) {
    var m := Find(members, id);
    m.Some? && (m.value.role.Orchestrator? || m.value.resumed)
  }

  // ---------------------------------------------------------------- the plan

  datatype Plan = Plan(workers: seq<Id>, orchestrators: seq<Id>, pending: set<Id>)

  predicate Selected(only: set<Id>, id: Id) {
    only == {} || id in only
  }

  predicate Restorable(m: Member, only: set<Id>) {
    m.life == Awaiting(false) && Selected(only, m.id)
  }

  function Steps(members: seq<Member>, only: set<Id>, orchestrators: bool): seq<Id> {
    if members == [] then []
    else
      var m := members[|members| - 1];
      Steps(members[..|members| - 1], only, orchestrators)
      + if Restorable(m, only) && m.role.Orchestrator? == orchestrators then [m.id] else []
  }

  function Pending(recoveries: Recoveries, members: seq<Member>, only: set<Id>): set<Id> {
    set o | o in recoveries && !recoveries[o] && Selected(only, o) && IsLive(members, o)
  }

  function PlanOf(recoveries: Recoveries, members: seq<Member>, only: set<Id>): Plan {
    Plan(Steps(members, only, false), Steps(members, only, true), Pending(recoveries, members, only))
  }

  /** The owner that a restored worker's recovery concerns. */
  predicate OwnsStep(members: seq<Member>, step: Id, o: Id) {
    var m := Find(members, step);
    m.Some? && m.value.owner == Some(o) && Find(members, o).Some? && Find(members, o).value.role.Orchestrator?
      && IsLive(members, o)
  }

  predicate IsTarget(plan: Plan, members: seq<Member>, o: Id) {
    IsLive(members, o)
    && (o in plan.orchestrators || o in plan.pending || exists w :: w in plan.workers && OwnsStep(members, w, o))
  }

  /** The order of ids: character by character, a prefix first. */
  predicate Before(a: Id, b: Id) {
    b != "" && (a == "" || a[0] < b[0] || (a[0] == b[0] && Before(a[1..], b[1..])))
  }

  predicate Ascending(ids: seq<Id>) {
    forall i, j :: 0 <= i < j < |ids| ==> Before(ids[i], ids[j])
  }

  lemma {:induction false} BeforeIsTotal(a: Id, b: Id)
    ensures a == b || Before(a, b) || Before(b, a)
    decreases |a|
  {
    if a != "" && b != "" && a[0] == b[0] {
      BeforeIsTotal(a[1..], b[1..]);
      assert a == [a[0]] + a[1..] && b == [b[0]] + b[1..];
    }
  }

  lemma {:induction false} BeforeIsTransitive(a: Id, b: Id, c: Id)
    requires Before(a, b) && Before(b, c)
    ensures Before(a, c)
    decreases |a|
  {
    if a != "" && a[0] == b[0] == c[0] {
      BeforeIsTransitive(a[1..], b[1..], c[1..]);
    }
  }

  lemma {:induction false} BeforeIsStrict(a: Id)
    ensures !Before(a, a)
    decreases |a|
  {
    if a != "" {
      BeforeIsStrict(a[1..]);
    }
  }

  /** No id in `ids` comes before `first`. */
  ghost predicate IsFirst(ids: set<Id>, first: Id) {
    first in ids && forall id :: id in ids && id != first ==> Before(first, id)
  }

  /** The targets, each once, in the order of their ids. */
  ghost predicate Lists(order: seq<Id>, plan: Plan, members: seq<Member>) {
    (forall o :: o in order <==> IsTarget(plan, members, o)) && Ascending(order)
  }

  // ---------------------------------------------------------------- the log a run leaves

  function RelaunchOf(id: Id, members: seq<Member>, launch: Id -> Outcome): seq<Effect> {
    if Find(members, id).None? then [] else [Relaunched(id, launch(id)), Recorded(id, launch(id))]
  }

  function Relaunches(ids: seq<Id>, members: seq<Member>, launch: Id -> Outcome): seq<Effect> {
    if ids == [] then []
    else Relaunches(ids[..|ids| - 1], members, launch) + RelaunchOf(ids[|ids| - 1], members, launch)
  }

  function Survivors(ids: seq<Id>, members: seq<Member>, launch: Id -> Outcome): seq<Id> {
    if ids == [] then []
    else
      var id := ids[|ids| - 1];
      Survivors(ids[..|ids| - 1], members, launch) + if Find(members, id).Some? && !launch(id).Failed? then [id] else []
  }

  function BriefingOf(id: Id, members: seq<Member>, delivers: Id -> bool): seq<Effect> {
    if !HasBriefing(members, id) then [] else if delivers(id) then [Briefed(id)] else [BriefingFailed(id)]
  }

  function Briefings(ids: seq<Id>, members: seq<Member>, delivers: Id -> bool): seq<Effect> {
    if ids == [] then []
    else Briefings(ids[..|ids| - 1], members, delivers) + BriefingOf(ids[|ids| - 1], members, delivers)
  }

  function RecoveryOf(o: Id, pending: set<Id>, members: seq<Member>, delivers: Id -> bool): seq<Effect> {
    (if o in pending then [] else [Began(o)])
    + BriefingOf(o, members, delivers)
    + if HasBriefing(members, o) && delivers(o) then [MarkedSent(o), MarkedListed(o)] else []
  }

  function RecoveriesOf(order: seq<Id>, pending: set<Id>, members: seq<Member>, delivers: Id -> bool): seq<Effect> {
    if order == [] then []
    else
      var o := order[|order| - 1];
      RecoveriesOf(order[..|order| - 1], pending, members, delivers) + RecoveryOf(o, pending, members, delivers)
  }

  lemma RelaunchesSnoc(ids: seq<Id>, i: nat, members: seq<Member>, launch: Id -> Outcome)
    requires i < |ids|
    ensures Relaunches(ids[..i + 1], members, launch)
            == Relaunches(ids[..i], members, launch) + RelaunchOf(ids[i], members, launch)
    ensures Survivors(ids[..i + 1], members, launch)
            == Survivors(ids[..i], members, launch)
               + if Find(members, ids[i]).Some? && !launch(ids[i]).Failed? then [ids[i]] else []
  {
    assert ids[..i + 1][..i] == ids[..i];
  }

  lemma BriefingsSnoc(ids: seq<Id>, i: nat, members: seq<Member>, delivers: Id -> bool)
    requires i < |ids|
    ensures Briefings(ids[..i + 1], members, delivers)
            == Briefings(ids[..i], members, delivers) + BriefingOf(ids[i], members, delivers)
  {
    assert ids[..i + 1][..i] == ids[..i];
  }

  lemma RecoveriesSnoc(order: seq<Id>, i: nat, pending: set<Id>, members: seq<Member>, delivers: Id -> bool)
    requires i < |order|
    ensures RecoveriesOf(order[..i + 1], pending, members, delivers)
            == RecoveriesOf(order[..i], pending, members, delivers) + RecoveryOf(order[i], pending, members, delivers)
  {
    assert order[..i + 1][..i] == order[..i];
  }

  predicate NeedsNudge(id: Id, members: seq<Member>, briefed: set<Id>) {
    Find(members, id).Some? && Find(members, id).value.pendingInbox > 0 && id !in briefed
  }

  function NudgeOf(id: Id, members: seq<Member>, briefed: set<Id>): seq<Effect> {
    if NeedsNudge(id, members, briefed) then [Nudged(id)] else []
  }

  function Nudges(ids: seq<Id>, members: seq<Member>, briefed: set<Id>): seq<Effect> {
    if ids == [] then []
    else
      Nudges(ids[..|ids| - 1], members, briefed) + NudgeOf(ids[|ids| - 1], members, briefed)
  }

  function BriefedIn(log: seq<Effect>): set<Id> {
    set i | 0 <= i < |log| && log[i].Briefed? :: log[i].id
  }

  function WorkerStage(plan: Plan, env: Env): seq<Effect> {
    Relaunches(plan.workers, env.first, env.launch)
    + Briefings(Survivors(plan.workers, env.first, env.launch), env.second, env.toWorker)
  }

  function OrchestratorStage(plan: Plan, env: Env): seq<Effect> {
    Relaunches(plan.orchestrators, env.second, env.launch)
  }

  function BriefingStage(plan: Plan, env: Env, order: seq<Id>): seq<Effect> {
    RecoveriesOf(order, plan.pending, env.third, env.toOrchestrator)
  }

  function BeforeNudges(plan: Plan, env: Env, order: seq<Id>): seq<Effect> {
    WorkerStage(plan, env) + OrchestratorStage(plan, env) + BriefingStage(plan, env, order)
  }

  /** A complete run. */
  function Run(plan: Plan, env: Env, order: seq<Id>): seq<Effect> {
    var log := BeforeNudges(plan, env, order);
    var live := Survivors(plan.workers, env.first, env.launch) + Survivors(plan.orchestrators, env.second, env.launch);
    log + Nudges(live, env.third, BriefedIn(log))
  }

  function StoreEffect(recoveries: Recoveries, e: Effect): Recoveries {
    match e
    case Began(o) => recoveries[o := false]
    case MarkedSent(o) => if o in recoveries then recoveries[o := true] else recoveries
    case _ => recoveries
  }

  /** What the effects do to the store's recoveries. */
  function Stored(recoveries: Recoveries, log: seq<Effect>): Recoveries {
    if log == [] then recoveries else StoreEffect(Stored(recoveries, log[..|log| - 1]), log[|log| - 1])
  }

  lemma StoredSnoc(recoveries: Recoveries, log: seq<Effect>, e: Effect)
    ensures Stored(recoveries, log + [e]) == StoreEffect(Stored(recoveries, log), e)
  {
    assert (log + [e])[..|log + [e]| - 1] == log;
  }

  lemma BriefedInSnoc(log: seq<Effect>, e: Effect)
    ensures BriefedIn(log + [e]) == BriefedIn(log) + if e.Briefed? then {e.id} else {}
  {
    BriefedInConcat(log, [e]);
    assert e.Briefed? ==> [e][0].Briefed? && e.id in BriefedIn([e]);
  }

  lemma {:induction false} StoredConcat(recoveries: Recoveries, xs: seq<Effect>, ys: seq<Effect>)
    ensures Stored(recoveries, xs + ys) == Stored(Stored(recoveries, xs), ys)
    decreases |ys|
  {
    if ys == [] {
      assert xs + ys == xs;
    } else {
      assert (xs + ys)[..|xs + ys| - 1] == xs + ys[..|ys| - 1];
      StoredConcat(recoveries, xs, ys[..|ys| - 1]);
    }
  }

  lemma BriefedInConcat(xs: seq<Effect>, ys: seq<Effect>)
    ensures BriefedIn(xs + ys) == BriefedIn(xs) + BriefedIn(ys)
  {
    forall id | id in BriefedIn(xs) + BriefedIn(ys) ensures id in BriefedIn(xs + ys) {
      if id in BriefedIn(xs) {
        var i :| 0 <= i < |xs| && xs[i] == Briefed(id);
        assert (xs + ys)[i] == Briefed(id);
      } else {
        var i :| 0 <= i < |ys| && ys[i] == Briefed(id);
        assert (xs + ys)[|xs| + i] == Briefed(id);
      }
    }
  }

  // ---------------------------------------------------------------- the run itself

  /** The restore: the store's recoveries, and the log and the briefed sessions it keeps as it goes. */
  class Restorer {
    var recoveries: Recoveries
    var log: seq<Effect>
    var briefed: set<Id>
    ghost const begun: Recoveries

    ghost predicate Valid()
      reads this
    {
      recoveries == Stored(begun, log) && briefed == BriefedIn(log)
    }

    constructor (store: Recoveries)
      ensures Valid() && log == [] && begun == store
    {
      recoveries, log, briefed, begun := store, [], {}, store;
    }

    method Append(e: Effect)
      requires Valid()
      modifies this
      ensures Valid() && log == old(log) + [e]
    {
      StoredSnoc(begun, log, e);
      BriefedInSnoc(log, e);
      if e.Began? {
        recoveries := recoveries[e.id := false];
      } else if e.MarkedSent? && e.id in recoveries {
        recoveries := recoveries[e.id := true];
      } else if e.Briefed? {
        briefed := briefed + {e.id};
      }
      log := log + [e];
    }

    method Relaunch(id: Id, members: seq<Member>, launch: Id -> Outcome) returns (lives: bool)
      requires Valid()
      modifies this
      ensures Valid() && log == old(log) + RelaunchOf(id, members, launch)
      ensures lives == (Find(members, id).Some? && !launch(id).Failed?)
    {
      if Find(members, id).None? {
        return false;
      }
      var outcome := launch(id);
      Append(Relaunched(id, outcome));
      Append(Recorded(id, outcome));
      lives := outcome != Failed;
    }

    method RelaunchAll(ids: seq<Id>, members: seq<Member>, launch: Id -> Outcome) returns (live: seq<Id>)
      requires Valid()
      modifies this
      ensures Valid() && log == old(log) + Relaunches(ids, members, launch) && live == Survivors(ids, members, launch)
    {
      live := [];
      for i := 0 to |ids|
        invariant Valid() && log == old(log) + Relaunches(ids[..i], members, launch)
        invariant live == Survivors(ids[..i], members, launch)
      {
        RelaunchesSnoc(ids, i, members, launch);
        Associates(old(log), Relaunches(ids[..i], members, launch), RelaunchOf(ids[i], members, launch));
        var lives := Relaunch(ids[i], members, launch);
        if lives {
          live := live + [ids[i]];
        }
      }
      assert ids[..|ids|] == ids;
    }

    method DeliverBriefing(id: Id, members: seq<Member>, delivers: Id -> bool) returns (sent: bool)
      requires Valid()
      modifies this
      ensures Valid() && log == old(log) + BriefingOf(id, members, delivers)
              && sent == (HasBriefing(members, id) && delivers(id))
    {
      if !HasBriefing(members, id) {
        return false;
      }
      sent := delivers(id);
      Append(if sent then Briefed(id) else BriefingFailed(id));
    }

    method BriefWorkers(ids: seq<Id>, members: seq<Member>, delivers: Id -> bool)
      requires Valid()
      modifies this
      ensures Valid() && log == old(log) + Briefings(ids, members, delivers)
    {
      for i := 0 to |ids|
        invariant Valid() && log == old(log) + Briefings(ids[..i], members, delivers)
      {
        BriefingsSnoc(ids, i, members, delivers);
        Associates(old(log), Briefings(ids[..i], members, delivers), BriefingOf(ids[i], members, delivers));
        var _ := DeliverBriefing(ids[i], members, delivers);
      }
      assert ids[..|ids|] == ids;
    }

    method Recover(o: Id, pending: set<Id>, members: seq<Member>, delivers: Id -> bool)
      requires Valid()
      modifies this
      ensures Valid() && log == old(log) + RecoveryOf(o, pending, members, delivers)
    {
      if o !in pending {
        Append(Began(o));
      }
      var sent := DeliverBriefing(o, members, delivers);
      if sent {
        Append(MarkedSent(o));
        Append(MarkedListed(o));
      }
    }

    method BriefOrchestrators(order: seq<Id>, pending: set<Id>, members: seq<Member>, delivers: Id -> bool)
      requires Valid()
      modifies this
      ensures Valid() && log == old(log) + RecoveriesOf(order, pending, members, delivers)
    {
      for i := 0 to |order|
        invariant Valid() && log == old(log) + RecoveriesOf(order[..i], pending, members, delivers)
      {
        RecoveriesSnoc(order, i, pending, members, delivers);
        Associates(old(log), RecoveriesOf(order[..i], pending, members, delivers),
                   RecoveryOf(order[i], pending, members, delivers));
        Recover(order[i], pending, members, delivers);
      }
      assert order[..|order|] == order;
    }

    method NudgeUnbriefed(ids: seq<Id>, members: seq<Member>)
      requires Valid()
      modifies this
      ensures Valid() && log == old(log) + Nudges(ids, members, old(briefed))
    {
      for i := 0 to |ids|
        invariant Valid() && briefed == old(briefed) && log == old(log) + Nudges(ids[..i], members, briefed)
      {
        assert ids[..i + 1][..i] == ids[..i];
        if NeedsNudge(ids[i], members, briefed) {
          BriefedInConcat(log, [Nudged(ids[i])]);
          Append(Nudged(ids[i]));
        }
      }
      assert ids[..|ids|] == ids;
    }

    method RestoreWorkers(plan: Plan, env: Env) returns (live: seq<Id>)
      requires Valid()
      modifies this
      ensures Valid() && log == old(log) + WorkerStage(plan, env)
              && live == Survivors(plan.workers, env.first, env.launch)
    {
      live := RelaunchAll(plan.workers, env.first, env.launch);
      BriefWorkers(live, env.second, env.toWorker);
      Associates(old(log), Relaunches(plan.workers, env.first, env.launch), Briefings(live, env.second, env.toWorker));
    }

    /** A complete run. `order` reports the targets. */
    method Restore(only: set<Id>, env: Env) returns (order: seq<Id>)
      requires Valid() && log == []
      modifies this
      ensures Valid()
      ensures var plan := PlanOf(old(recoveries), env.first, only);
              Lists(order, plan, env.third) && log == Run(plan, env, order)
      ensures recoveries == Stored(old(recoveries), log)
    {
      assert recoveries == begun;
      var plan := PlanOf(recoveries, env.first, only);
      var liveWorkers := RestoreWorkers(plan, env);
      assert log == WorkerStage(plan, env);
      var liveOrchestrators := RelaunchAll(plan.orchestrators, env.second, env.launch);
      assert log == WorkerStage(plan, env) + OrchestratorStage(plan, env);
      order := BriefingTargets(plan, env.third);
      BriefOrchestrators(order, plan.pending, env.third, env.toOrchestrator);
      ghost var before := log;
      assert before == BeforeNudges(plan, env, order);
      NudgeUnbriefed(liveWorkers + liveOrchestrators, env.third);
      assert log == before + Nudges(liveWorkers + liveOrchestrators, env.third, BriefedIn(before));
    }
  }

  predicate OwnsOneOf(members: seq<Member>, steps: seq<Id>, o: Id) {
    exists w :: w in steps && OwnsStep(members, w, o)
  }

  method BriefingTargets(plan: Plan, members: seq<Member>) returns (order: seq<Id>)
    ensures Lists(order, plan, members)
  {
    var targets := (set o | o in plan.orchestrators) + plan.pending;
    for i := 0 to |plan.workers|
      invariant forall o :: o in targets <==>
                              (o in plan.orchestrators || o in plan.pending || OwnsOneOf(members, plan.workers[..i], o))
    {
      var m := Find(members, plan.workers[i]);
      assert plan.workers[..i + 1] == plan.workers[..i] + [plan.workers[i]];
      if m.Some? && m.value.owner.Some? && OwnsStep(members, plan.workers[i], m.value.owner.value) {
        targets := targets + {m.value.owner.value};
      }
    }
    assert plan.workers[..|plan.workers|] == plan.workers;
    order := ListLive(targets, members);
  }

  method FirstOf(ids: set<Id>) returns (first: Id)
    requires ids != {}
    ensures IsFirst(ids, first)
  {
    first :| first in ids;
    var rest := ids - {first};
    while rest != {}
      invariant rest <= ids && first in ids && first !in rest
      invariant forall id :: id in ids && id !in rest && id != first ==> Before(first, id)
      decreases |rest|
    {
      var id :| id in rest;
      rest := rest - {id};
      BeforeIsTotal(first, id);
      if Before(id, first) {
        forall other | other in ids && other !in rest && other != id && other != first ensures Before(id, other) {
          BeforeIsTransitive(id, first, other);
        }
        first := id;
      }
    }
  }

  /** The live ones among `targets`, in the order of their ids. */
  method ListLive(targets: set<Id>, members: seq<Member>) returns (order: seq<Id>)
    ensures Ascending(order) && forall o :: o in order <==> o in targets && IsLive(members, o)
  {
    var rest := targets;
    order := [];
    while rest != {}
      invariant rest <= targets && Ascending(order)
      invariant forall o :: o in order <==> o in targets - rest && IsLive(members, o)
      invariant forall o, later :: o in order && later in rest ==> Before(o, later)
      decreases |rest|
    {
      var o := FirstOf(rest);
      rest := rest - {o};
      if IsLive(members, o) {
        order := order + [o];
      }
    }
  }
}
