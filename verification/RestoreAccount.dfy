/** Exactly what a complete restore does to whom: every relaunch, briefing, mark and nudge of its log, said of the
    fleet it met. */
module RestoreAccount {
  import opened NinoxTypes
  import opened FleetRestore
  import opened RestoreGuarantees

  // ---------------------------------------------------------------- the fleet it met

  ghost predicate Has(members: seq<Member>, id: Id) {
    exists m :: m in members && m.id == id
  }

  ghost predicate LiveIn(members: seq<Member>, id: Id) {
    exists m :: m in members && m.id == id && m.life == Live
  }

  /** Down, not blocked by an anomaly, and not left out by the user. */
  ghost predicate ToRestore(members: seq<Member>, only: set<Id>, id: Id, orchestrator: bool) {
    exists m :: m in members && m.id == id && m.life == Awaiting(false) && (only == {} || id in only)
                && m.role.Orchestrator? == orchestrator
  }

  /** There is something to tell it: it is an orchestrator, or a worker that was restored. */
  ghost predicate ToBeTold(members: seq<Member>, id: Id) {
    exists m :: m in members && m.id == id && (m.role.Orchestrator? || m.resumed)
  }

  /** A recovery of a live orchestrator was begun and its briefing never sent. */
  ghost predicate Owed(recoveries: Recoveries, members: seq<Member>, only: set<Id>, o: Id) {
    o in recoveries && !recoveries[o] && (only == {} || o in only) && LiveIn(members, o)
  }

  /** It is live by now, and was restored, is owed a briefing, or is the orchestrator of a restored worker. */
  ghost predicate Concerned(recoveries: Recoveries, env: Env, only: set<Id>, o: Id) {
    LiveIn(env.third, o)
    && (ToRestore(env.first, only, o, true) || Owed(recoveries, env.first, only, o)
        || ((exists m :: m in env.third && m.id == o && m.role.Orchestrator?)
            && exists w :: w in env.third && w.owner == Some(o) && ToRestore(env.first, only, w.id, false)))
  }

  lemma FindsExactly(members: seq<Member>, m: Member)
    requires UniqueIds(members) && m in members
    ensures Find(members, m.id) == Some(m)
  {
    assert Find(members, m.id).Some?;
    SameMember(members, Find(members, m.id).value, m);
  }

  lemma LiveExactly(members: seq<Member>, id: Id)
    requires UniqueIds(members)
    ensures IsLive(members, id) <==> LiveIn(members, id)
    ensures Find(members, id).Some? <==> Has(members, id)
    ensures HasBriefing(members, id) <==> ToBeTold(members, id)
  {
    forall m | m in members && m.id == id ensures Find(members, id) == Some(m) {
      FindsExactly(members, m);
    }
  }

  lemma {:induction false} StepsExactly(members: seq<Member>, only: set<Id>, orchestrators: bool, id: Id)
    ensures id in Steps(members, only, orchestrators) <==> ToRestore(members, only, id, orchestrators)
    decreases |members|
  {
    if members != [] {
      StepsExactly(members[..|members| - 1], only, orchestrators, id);
      assert members == members[..|members| - 1] + [members[|members| - 1]];
    }
  }

  // ---------------------------------------------------------------- the log, stage by stage

  lemma {:induction false} RelaunchesExactly(ids: seq<Id>, members: seq<Member>, launch: Id -> Outcome, e: Effect)
    ensures e in Relaunches(ids, members, launch)
       <==> e.id in ids && Find(members, e.id).Some?
            && (e == Relaunched(e.id, launch(e.id)) || e == Recorded(e.id, launch(e.id)))
    decreases |ids|
  {
    if ids != [] {
      RelaunchesExactly(ids[..|ids| - 1], members, launch, e);
      assert ids == ids[..|ids| - 1] + [ids[|ids| - 1]];
    }
  }

  lemma {:induction false} SurvivorsExactly(ids: seq<Id>, members: seq<Member>, launch: Id -> Outcome, id: Id)
    ensures id in Survivors(ids, members, launch) <==> id in ids && Find(members, id).Some? && launch(id) != Failed
    decreases |ids|
  {
    if ids != [] {
      SurvivorsExactly(ids[..|ids| - 1], members, launch, id);
      assert ids == ids[..|ids| - 1] + [ids[|ids| - 1]];
    }
  }

  lemma {:induction false} BriefingsExactly(ids: seq<Id>, members: seq<Member>, delivers: Id -> bool, e: Effect)
    ensures e in Briefings(ids, members, delivers)
       <==> e.id in ids && HasBriefing(members, e.id)
            && e == if delivers(e.id) then Briefed(e.id) else BriefingFailed(e.id)
    decreases |ids|
  {
    if ids != [] {
      BriefingsExactly(ids[..|ids| - 1], members, delivers, e);
      assert ids == ids[..|ids| - 1] + [ids[|ids| - 1]];
    }
  }

  /** What recovering `o` leaves in the log. */
  predicate OfRecovery(o: Id, pending: set<Id>, members: seq<Member>, delivers: Id -> bool, e: Effect) {
    (e == Began(o) && o !in pending)
    || (HasBriefing(members, o)
        && if delivers(o) then e in {Briefed(o), MarkedSent(o), MarkedListed(o)} else e == BriefingFailed(o))
  }

  lemma RecoveryExactly(o: Id, pending: set<Id>, members: seq<Member>, delivers: Id -> bool, e: Effect)
    ensures e in RecoveryOf(o, pending, members, delivers) <==> OfRecovery(o, pending, members, delivers, e)
  {
  }

  lemma {:induction false} RecoveriesExactly(order: seq<Id>, pending: set<Id>, members: seq<Member>,
                                             delivers: Id -> bool, e: Effect)
    ensures e in RecoveriesOf(order, pending, members, delivers)
       <==> e.id in order && OfRecovery(e.id, pending, members, delivers, e)
    decreases |order|
  {
    if order != [] {
      RecoveriesExactly(order[..|order| - 1], pending, members, delivers, e);
      RecoveryExactly(order[|order| - 1], pending, members, delivers, e);
      assert order == order[..|order| - 1] + [order[|order| - 1]];
    }
  }

  lemma {:induction false} NudgesExactly(ids: seq<Id>, members: seq<Member>, briefed: set<Id>, e: Effect)
    ensures e in Nudges(ids, members, briefed)
       <==> e == Nudged(e.id) && e.id in ids && Find(members, e.id).Some?
            && Find(members, e.id).value.pendingInbox > 0 && e.id !in briefed
    decreases |ids|
  {
    if ids != [] {
      NudgesExactly(ids[..|ids| - 1], members, briefed, e);
      assert ids == ids[..|ids| - 1] + [ids[|ids| - 1]];
    }
  }

  // ---------------------------------------------------------------- who is relaunched

  ghost predicate AllUnique(env: Env) {
    UniqueIds(env.first) && UniqueIds(env.second) && UniqueIds(env.third)
  }

  /** It was relaunched: as a worker, or as an orchestrator that was still known when its turn came. */
  ghost predicate Returns(env: Env, only: set<Id>, id: Id) {
    ToRestore(env.first, only, id, false) || (ToRestore(env.first, only, id, true) && Has(env.second, id))
  }

  lemma ToRestoreIsKnown(members: seq<Member>, only: set<Id>, id: Id, orchestrator: bool)
    requires ToRestore(members, only, id, orchestrator)
    ensures Has(members, id)
  {
  }

  function Survived(plan: Plan, env: Env): seq<Id> {
    Survivors(plan.workers, env.first, env.launch) + Survivors(plan.orchestrators, env.second, env.launch)
  }

  lemma RunHas(plan: Plan, env: Env, order: seq<Id>, e: Effect)
    ensures e in Run(plan, env, order)
       <==> e in Relaunches(plan.workers, env.first, env.launch)
            || e in Briefings(Survivors(plan.workers, env.first, env.launch), env.second, env.toWorker)
            || e in Relaunches(plan.orchestrators, env.second, env.launch)
            || e in RecoveriesOf(order, plan.pending, env.third, env.toOrchestrator)
            || e in Nudges(Survived(plan, env), env.third, BriefedIn(BeforeNudges(plan, env, order)))
  {
    var (a, b) := (WorkerStage(plan, env), OrchestratorStage(plan, env));
    var c := BriefingStage(plan, env, order);
    var d := Nudges(Survived(plan, env), env.third, BriefedIn(BeforeNudges(plan, env, order)));
    assert Run(plan, env, order) == a + b + c + d;
  }

  /** Exactly these sessions are relaunched, and every relaunch is recorded with its outcome. */
  lemma RelaunchedExactly(recoveries: Recoveries, only: set<Id>, env: Env, order: seq<Id>, id: Id, outcome: Outcome)
    requires AllUnique(env)
    ensures var run := Run(PlanOf(recoveries, env.first, only), env, order);
            (Relaunched(id, outcome) in run <==> Returns(env, only, id) && outcome == env.launch(id))
            && (Recorded(id, outcome) in run <==> Relaunched(id, outcome) in run)
  {
    var plan := PlanOf(recoveries, env.first, only);
    StepsExactly(env.first, only, false, id);
    StepsExactly(env.first, only, true, id);
    LiveExactly(env.first, id);
    LiveExactly(env.second, id);
    if ToRestore(env.first, only, id, false) {
      ToRestoreIsKnown(env.first, only, id, false);
    }
    RelaunchesBoth(recoveries, only, env, order, Relaunched(id, outcome));
    RelaunchesBoth(recoveries, only, env, order, Recorded(id, outcome));
  }

  lemma RelaunchesBoth(recoveries: Recoveries, only: set<Id>, env: Env, order: seq<Id>, e: Effect)
    requires e.Relaunched? || e.Recorded?
    ensures e in Run(PlanOf(recoveries, env.first, only), env, order)
       <==> (e == Relaunched(e.id, env.launch(e.id)) || e == Recorded(e.id, env.launch(e.id)))
            && ((e.id in PlanOf(recoveries, env.first, only).workers && Find(env.first, e.id).Some?)
                || (e.id in PlanOf(recoveries, env.first, only).orchestrators && Find(env.second, e.id).Some?))
  {
    var plan := PlanOf(recoveries, env.first, only);
    RunHas(plan, env, order, e);
    RelaunchesExactly(plan.workers, env.first, env.launch, e);
    RelaunchesExactly(plan.orchestrators, env.second, env.launch, e);
    BriefingsExactly(Survivors(plan.workers, env.first, env.launch), env.second, env.toWorker, e);
    RecoveriesExactly(order, plan.pending, env.third, env.toOrchestrator, e);
    NudgesExactly(Survived(plan, env), env.third, BriefedIn(BeforeNudges(plan, env, order)), e);
  }

  // ---------------------------------------------------------------- who is briefed

  lemma TargetsExactly(recoveries: Recoveries, only: set<Id>, env: Env, o: Id)
    requires AllUnique(env)
    ensures IsTarget(PlanOf(recoveries, env.first, only), env.third, o) <==> Concerned(recoveries, env, only, o)
    ensures o in PlanOf(recoveries, env.first, only).pending <==> Owed(recoveries, env.first, only, o)
  {
    var plan := PlanOf(recoveries, env.first, only);
    StepsExactly(env.first, only, true, o);
    LiveExactly(env.first, o);
    LiveExactly(env.third, o);
    OwnersExactly(recoveries, only, env, o);
  }

  /** The orchestrator of a restored worker. */
  lemma OwnersExactly(recoveries: Recoveries, only: set<Id>, env: Env, o: Id)
    requires AllUnique(env)
    ensures (exists w :: w in PlanOf(recoveries, env.first, only).workers && OwnsStep(env.third, w, o))
       <==> IsLive(env.third, o) && (exists m :: m in env.third && m.id == o && m.role.Orchestrator?)
            && exists w :: w in env.third && w.owner == Some(o) && ToRestore(env.first, only, w.id, false)
  {
    var plan := PlanOf(recoveries, env.first, only);
    forall m | m in env.third ensures Find(env.third, m.id) == Some(m) {
      FindsExactly(env.third, m);
    }
    forall id ensures id in plan.workers <==> ToRestore(env.first, only, id, false) {
      StepsExactly(env.first, only, false, id);
    }
    if IsLive(env.third, o) && (exists m :: m in env.third && m.id == o && m.role.Orchestrator?) {
      forall w | w in env.third && w.owner == Some(o) && ToRestore(env.first, only, w.id, false)
        ensures w.id in plan.workers && OwnsStep(env.third, w.id, o)
      {
      }
    }
    forall id | id in plan.workers && OwnsStep(env.third, id, o)
      ensures exists w :: w in env.third && w.owner == Some(o) && ToRestore(env.first, only, w.id, false)
    {
      var w := Find(env.third, id).value;
      assert w in env.third && w.id == id;
    }
  }

  /** A briefing is tried for a worker that came back and was resumed, and for every orchestrator concerned. */
  ghost predicate TriedFor(recoveries: Recoveries, env: Env, only: set<Id>, id: Id, delivered: bool) {
    (ToRestore(env.first, only, id, false) && env.launch(id) != Failed && ToBeTold(env.second, id)
     && env.toWorker(id) == delivered)
    || (Concerned(recoveries, env, only, id) && ToBeTold(env.third, id) && env.toOrchestrator(id) == delivered)
  }

  /** Exactly these sessions are briefed, in vain or not. */
  lemma BriefedExactly(recoveries: Recoveries, only: set<Id>, env: Env, order: seq<Id>, id: Id)
    requires AllUnique(env) && Lists(order, PlanOf(recoveries, env.first, only), env.third)
    ensures var run := Run(PlanOf(recoveries, env.first, only), env, order);
            (Briefed(id) in run <==> TriedFor(recoveries, env, only, id, true))
            && (BriefingFailed(id) in run <==> TriedFor(recoveries, env, only, id, false))
  {
    BriefingsTried(recoveries, only, env, order, Briefed(id));
    BriefingsTried(recoveries, only, env, order, BriefingFailed(id));
  }

  lemma OnlyTheseBrief(plan: Plan, env: Env, order: seq<Id>, e: Effect)
    requires e.Briefed? || e.BriefingFailed?
    ensures e in Run(plan, env, order)
       <==> (e.id in Survivors(plan.workers, env.first, env.launch) && HasBriefing(env.second, e.id)
             && env.toWorker(e.id) == e.Briefed?)
            || (e.id in order && HasBriefing(env.third, e.id) && env.toOrchestrator(e.id) == e.Briefed?)
  {
    RunHas(plan, env, order, e);
    RelaunchesExactly(plan.workers, env.first, env.launch, e);
    RelaunchesExactly(plan.orchestrators, env.second, env.launch, e);
    BriefingsExactly(Survivors(plan.workers, env.first, env.launch), env.second, env.toWorker, e);
    RecoveriesExactly(order, plan.pending, env.third, env.toOrchestrator, e);
    NudgesExactly(Survived(plan, env), env.third, BriefedIn(BeforeNudges(plan, env, order)), e);
  }

  lemma BriefingsTried(recoveries: Recoveries, only: set<Id>, env: Env, order: seq<Id>, e: Effect)
    requires AllUnique(env) && Lists(order, PlanOf(recoveries, env.first, only), env.third)
    requires e.Briefed? || e.BriefingFailed?
    ensures e in Run(PlanOf(recoveries, env.first, only), env, order)
       <==> TriedFor(recoveries, env, only, e.id, e.Briefed?)
  {
    var plan := PlanOf(recoveries, env.first, only);
    OnlyTheseBrief(plan, env, order, e);
    CameBackExactly(recoveries, only, env, e.id);
    LiveExactly(env.second, e.id);
    LiveExactly(env.third, e.id);
    TargetsExactly(recoveries, only, env, e.id);
    assert e.id in order <==> Concerned(recoveries, env, only, e.id);
  }

  lemma CameBackExactly(recoveries: Recoveries, only: set<Id>, env: Env, id: Id)
    requires AllUnique(env)
    ensures var plan := PlanOf(recoveries, env.first, only);
            (id in Survivors(plan.workers, env.first, env.launch)
             <==> ToRestore(env.first, only, id, false) && env.launch(id) != Failed)
            && (id in Survivors(plan.orchestrators, env.second, env.launch)
                <==> ToRestore(env.first, only, id, true) && Has(env.second, id) && env.launch(id) != Failed)
  {
    var plan := PlanOf(recoveries, env.first, only);
    SurvivorsExactly(plan.workers, env.first, env.launch, id);
    SurvivorsExactly(plan.orchestrators, env.second, env.launch, id);
    StepsExactly(env.first, only, false, id);
    StepsExactly(env.first, only, true, id);
    LiveExactly(env.first, id);
    LiveExactly(env.second, id);
    if ToRestore(env.first, only, id, false) {
      ToRestoreIsKnown(env.first, only, id, false);
    }
  }

  // ---------------------------------------------------------------- marks and nudges

  /** A recovery is begun for every orchestrator concerned that is not owed a briefing already, and marked as sent, with
      its listed requests, exactly when its briefing was delivered. */
  lemma MarkedExactly(recoveries: Recoveries, only: set<Id>, env: Env, order: seq<Id>, o: Id)
    requires AllUnique(env) && Lists(order, PlanOf(recoveries, env.first, only), env.third)
    ensures var run := Run(PlanOf(recoveries, env.first, only), env, order);
            var concerned := Concerned(recoveries, env, only, o);
            (Began(o) in run <==> concerned && !Owed(recoveries, env.first, only, o))
            && (MarkedSent(o) in run <==> concerned && ToBeTold(env.third, o) && env.toOrchestrator(o))
            && (MarkedListed(o) in run <==> MarkedSent(o) in run)
  {
    MarksMade(recoveries, only, env, order, Began(o));
    MarksMade(recoveries, only, env, order, MarkedSent(o));
    MarksMade(recoveries, only, env, order, MarkedListed(o));
  }

  lemma OnlyRecoveriesMark(plan: Plan, env: Env, order: seq<Id>, e: Effect)
    requires e.Began? || e.MarkedSent? || e.MarkedListed?
    ensures e in Run(plan, env, order)
       <==> e.id in order && OfRecovery(e.id, plan.pending, env.third, env.toOrchestrator, e)
  {
    RunHas(plan, env, order, e);
    RelaunchesExactly(plan.workers, env.first, env.launch, e);
    RelaunchesExactly(plan.orchestrators, env.second, env.launch, e);
    BriefingsExactly(Survivors(plan.workers, env.first, env.launch), env.second, env.toWorker, e);
    RecoveriesExactly(order, plan.pending, env.third, env.toOrchestrator, e);
    NudgesExactly(Survived(plan, env), env.third, BriefedIn(BeforeNudges(plan, env, order)), e);
  }

  lemma MarksMade(recoveries: Recoveries, only: set<Id>, env: Env, order: seq<Id>, e: Effect)
    requires AllUnique(env) && Lists(order, PlanOf(recoveries, env.first, only), env.third)
    requires e.Began? || e.MarkedSent? || e.MarkedListed?
    ensures e in Run(PlanOf(recoveries, env.first, only), env, order)
       <==> Concerned(recoveries, env, only, e.id)
            && if e.Began? then !Owed(recoveries, env.first, only, e.id)
               else ToBeTold(env.third, e.id) && env.toOrchestrator(e.id)
  {
    var plan := PlanOf(recoveries, env.first, only);
    OnlyRecoveriesMark(plan, env, order, e);
    LiveExactly(env.third, e.id);
    TargetsExactly(recoveries, only, env, e.id);
    assert e.id in order <==> Concerned(recoveries, env, only, e.id);
    assert e.id in plan.pending <==> Owed(recoveries, env.first, only, e.id);
  }

  lemma OnlyTheLastStageNudges(plan: Plan, env: Env, order: seq<Id>, id: Id)
    ensures Nudged(id) in Run(plan, env, order)
       <==> id in Survived(plan, env) && Find(env.third, id).Some? && Find(env.third, id).value.pendingInbox > 0
            && id !in BriefedIn(BeforeNudges(plan, env, order))
  {
    var e := Nudged(id);
    RunHas(plan, env, order, e);
    RelaunchesExactly(plan.workers, env.first, env.launch, e);
    RelaunchesExactly(plan.orchestrators, env.second, env.launch, e);
    BriefingsExactly(Survivors(plan.workers, env.first, env.launch), env.second, env.toWorker, e);
    RecoveriesExactly(order, plan.pending, env.third, env.toOrchestrator, e);
    NudgesExactly(Survived(plan, env), env.third, BriefedIn(BeforeNudges(plan, env, order)), e);
  }

  /** Exactly the sessions that came back, were not briefed and have messages waiting are nudged. */
  lemma NudgedExactly(recoveries: Recoveries, only: set<Id>, env: Env, order: seq<Id>, id: Id)
    requires AllUnique(env) && Lists(order, PlanOf(recoveries, env.first, only), env.third)
    ensures Nudged(id) in Run(PlanOf(recoveries, env.first, only), env, order)
       <==> Returns(env, only, id) && env.launch(id) != Failed
            && (exists m :: m in env.third && m.id == id && m.pendingInbox > 0)
            && Briefed(id) !in Run(PlanOf(recoveries, env.first, only), env, order)
  {
    var plan := PlanOf(recoveries, env.first, only);
    OnlyTheLastStageNudges(plan, env, order, id);
    CameBackExactly(recoveries, only, env, id);
    BriefedBeforeNudges(plan, env, order, id);
    InboxExactly(env.third, id);
  }

  lemma InboxExactly(members: seq<Member>, id: Id)
    requires UniqueIds(members)
    ensures Find(members, id).Some? && Find(members, id).value.pendingInbox > 0
       <==> exists m :: m in members && m.id == id && m.pendingInbox > 0
  {
    forall m | m in members && m.id == id ensures Find(members, id) == Some(m) {
      FindsExactly(members, m);
    }
  }

  lemma BriefedBeforeNudges(plan: Plan, env: Env, order: seq<Id>, id: Id)
    ensures id in BriefedIn(BeforeNudges(plan, env, order)) <==> Briefed(id) in Run(plan, env, order)
  {
    var log := BeforeNudges(plan, env, order);
    var d := Nudges(Survived(plan, env), env.third, BriefedIn(log));
    NudgesExactly(Survived(plan, env), env.third, BriefedIn(log), Briefed(id));
    assert Run(plan, env, order) == log + d;
    assert id in BriefedIn(log) <==> Briefed(id) in log by {
      if Briefed(id) in log {
        var i :| 0 <= i < |log| && log[i] == Briefed(id);
        assert log[i].Briefed? && log[i].id == id;
      }
    }
  }

  // ---------------------------------------------------------------- in which order

  ghost predicate InFleetOrder(members: seq<Member>, a: Id, b: Id) {
    exists p, q :: 0 <= p < q < |members| && members[p].id == a && members[q].id == b
  }

  lemma {:induction false} StepIsAt(members: seq<Member>, only: set<Id>, orchestrators: bool, i: nat)
    requires i < |Steps(members, only, orchestrators)|
    ensures exists p :: 0 <= p < |members| && members[p].id == Steps(members, only, orchestrators)[i]
    decreases |members|
  {
    if i < |Steps(members[..|members| - 1], only, orchestrators)| {
      StepIsAt(members[..|members| - 1], only, orchestrators, i);
    }
  }

  lemma {:induction false} StepsFollowTheFleet(members: seq<Member>, only: set<Id>, orchestrators: bool, i: nat, j: nat)
    requires i < j < |Steps(members, only, orchestrators)|
    ensures InFleetOrder(members, Steps(members, only, orchestrators)[i], Steps(members, only, orchestrators)[j])
    decreases |members|
  {
    var front := members[..|members| - 1];
    if j < |Steps(front, only, orchestrators)| {
      StepsFollowTheFleet(front, only, orchestrators, i, j);
    } else {
      StepIsAt(front, only, orchestrators, i);
    }
  }

  /** The `i`-th effect of a stage is of its `a`-th session. */
  lemma {:induction false} RelaunchIsOf(ids: seq<Id>, members: seq<Member>, launch: Id -> Outcome, i: nat)
    returns (a: nat)
    requires i < |Relaunches(ids, members, launch)|
    ensures a < |ids| && Relaunches(ids, members, launch)[i].id == ids[a]
    ensures a < |ids| - 1 ==> i < |Relaunches(ids[..|ids| - 1], members, launch)|
    decreases |ids|
  {
    var front := Relaunches(ids[..|ids| - 1], members, launch);
    if i < |front| {
      a := RelaunchIsOf(ids[..|ids| - 1], members, launch, i);
    } else {
      a := |ids| - 1;
    }
  }

  lemma {:induction false} RelaunchesInOrder(ids: seq<Id>, members: seq<Member>, launch: Id -> Outcome, i: nat, j: nat)
    requires i < j < |Relaunches(ids, members, launch)|
    requires Relaunches(ids, members, launch)[i].Relaunched? && Relaunches(ids, members, launch)[j].Relaunched?
    ensures exists a, b :: 0 <= a < b < |ids| && Relaunches(ids, members, launch)[i].id == ids[a]
                           && Relaunches(ids, members, launch)[j].id == ids[b]
    decreases |ids|
  {
    var n := |ids| - 1;
    var front := Relaunches(ids[..n], members, launch);
    if j < |front| {
      RelaunchesInOrder(ids[..n], members, launch, i, j);
    } else if i < |front| {
      var a := RelaunchIsOf(ids[..n], members, launch, i);
      assert ids[..n][a] == ids[a] && Relaunches(ids, members, launch)[j].id == ids[n];
    }
  }

  /** Each stage relaunches its sessions in the order in which the fleet lists them, and records every outcome at
      once. */
  lemma RelaunchesFollowTheFleet(members: seq<Member>, only: set<Id>, orchestrators: bool, known: seq<Member>,
                                 launch: Id -> Outcome, i: nat, j: nat)
    requires i < j < |Relaunches(Steps(members, only, orchestrators), known, launch)|
    requires var stage := Relaunches(Steps(members, only, orchestrators), known, launch);
             stage[i].Relaunched? && stage[j].Relaunched?
    ensures var stage := Relaunches(Steps(members, only, orchestrators), known, launch);
            InFleetOrder(members, stage[i].id, stage[j].id)
  {
    var ids := Steps(members, only, orchestrators);
    RelaunchesInOrder(ids, known, launch, i, j);
    var a, b :| 0 <= a < b < |ids| && Relaunches(ids, known, launch)[i].id == ids[a]
                && Relaunches(ids, known, launch)[j].id == ids[b];
    StepsFollowTheFleet(members, only, orchestrators, a, b);
  }

  lemma {:induction false} EveryRelaunchIsRecorded(ids: seq<Id>, members: seq<Member>, launch: Id -> Outcome, i: nat)
    requires i < |Relaunches(ids, members, launch)| && Relaunches(ids, members, launch)[i].Relaunched?
    ensures var stage := Relaunches(ids, members, launch);
            i + 1 < |stage| && stage[i + 1] == Recorded(stage[i].id, stage[i].outcome)
    decreases |ids|
  {
    if i < |Relaunches(ids[..|ids| - 1], members, launch)| {
      EveryRelaunchIsRecorded(ids[..|ids| - 1], members, launch, i);
    }
  }

  /** `b` differs from `a` first at `k`, where `a` has ended or has the smaller character. */
  predicate DiffersAt(a: Id, b: Id, k: nat) {
    k <= |a| && k < |b| && a[..k] == b[..k] && (k == |a| || a[k] < b[k])
  }

  /** Targets come in the order of their ids, which is that of the dictionary. */
  lemma {:induction false} BeforeIsTheDictionary(a: Id, b: Id)
    ensures Before(a, b) <==> exists k: nat :: DiffersAt(a, b, k)
    decreases |a|
  {
    if a != "" && b != "" && a[0] == b[0] {
      BeforeIsTheDictionary(a[1..], b[1..]);
      assert a == [a[0]] + a[1..] && b == [b[0]] + b[1..];
      forall k: nat | DiffersAt(a[1..], b[1..], k) ensures DiffersAt(a, b, k + 1) {
        assert a[..k + 1] == [a[0]] + a[1..][..k] && b[..k + 1] == [b[0]] + b[1..][..k];
      }
      forall k: nat | DiffersAt(a, b, k) ensures k > 0 && DiffersAt(a[1..], b[1..], k - 1) {
        if k > 0 {
          assert a[1..][..k - 1] == a[..k][1..] && b[1..][..k - 1] == b[..k][1..];
        }
      }
    } else if Before(a, b) {
      assert DiffersAt(a, b, 0);
    } else {
      forall k: nat ensures !DiffersAt(a, b, k) {
        if k > 0 && k <= |a| && k < |b| {
          assert a[..k][0] == a[0] && b[..k][0] == b[0];
        }
      }
    }
  }
}
