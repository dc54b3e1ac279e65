/** What restores guarantee, whether or not they crash: workers come back before their orchestrators, a briefing marked
    as sent was delivered, and a briefing that was begun is tried again until it is delivered. */
module RestoreGuarantees {
  import opened NinoxTypes
  import opened FleetRestore

  // ---------------------------------------------------------------- workers first

  predicate UniqueIds(members: seq<Member>) {
    forall i, j :: 0 <= i < j < |members| ==> members[i].id != members[j].id
  }

  lemma {:induction false} StepsAreMembers(members: seq<Member>, only: set<Id>, orchestrators: bool, id: Id)
    requires id in Steps(members, only, orchestrators)
    ensures exists m :: m in members && m.id == id && Restorable(m, only) && m.role.Orchestrator? == orchestrators
    decreases |members|
  {
    var m := members[|members| - 1];
    if id in Steps(members[..|members| - 1], only, orchestrators) {
      StepsAreMembers(members[..|members| - 1], only, orchestrators, id);
    } else {
      assert m in members && m.id == id;
    }
  }

  lemma SameMember(members: seq<Member>, a: Member, b: Member)
    requires UniqueIds(members) && a in members && b in members && a.id == b.id
    ensures a == b
  {
  }

  /** No session is planned both as a worker and as an orchestrator. */
  lemma StepsAreDisjoint(members: seq<Member>, only: set<Id>, id: Id)
    requires UniqueIds(members) && id in Steps(members, only, false)
    ensures id !in Steps(members, only, true)
  {
    StepsAreMembers(members, only, false, id);
    var b :| b in members && b.id == id && !b.role.Orchestrator?;
    forall a | a in members && a.id == id ensures !a.role.Orchestrator? {
      SameMember(members, a, b);
    }
    if id in Steps(members, only, true) {
      StepsAreMembers(members, only, true, id);
    }
  }

  lemma {:induction false} RelaunchesSay(ids: seq<Id>, members: seq<Member>, launch: Id -> Outcome, e: Effect)
    requires e in Relaunches(ids, members, launch)
    ensures e.id in ids && (e.Relaunched? || e.Recorded?)
    decreases |ids|
  {
    if e in Relaunches(ids[..|ids| - 1], members, launch) {
      RelaunchesSay(ids[..|ids| - 1], members, launch, e);
    }
  }

  lemma {:induction false} BriefingsSay(ids: seq<Id>, members: seq<Member>, delivers: Id -> bool, e: Effect)
    requires e in Briefings(ids, members, delivers)
    ensures e.id in ids && (e.Briefed? || e.BriefingFailed?)
    decreases |ids|
  {
    if e in Briefings(ids[..|ids| - 1], members, delivers) {
      BriefingsSay(ids[..|ids| - 1], members, delivers, e);
    }
  }

  /** What a delivery attempt leaves in the log. */
  function Tried(id: Id, delivers: Id -> bool): Effect {
    if delivers(id) then Briefed(id) else BriefingFailed(id)
  }

  lemma {:induction false} BriefingsReach(ids: seq<Id>, members: seq<Member>, delivers: Id -> bool, id: Id)
    requires id in ids && HasBriefing(members, id)
    ensures Tried(id, delivers) in Briefings(ids, members, delivers)
    decreases |ids|
  {
    if id != ids[|ids| - 1] {
      BriefingsReach(ids[..|ids| - 1], members, delivers, id);
    }
  }

  lemma {:induction false} SurvivorsReach(ids: seq<Id>, members: seq<Member>, launch: Id -> Outcome, id: Id)
    requires id in ids && Find(members, id).Some? && !launch(id).Failed?
    ensures id in Survivors(ids, members, launch)
    decreases |ids|
  {
    if id != ids[|ids| - 1] {
      SurvivorsReach(ids[..|ids| - 1], members, launch, id);
    }
  }

  lemma {:induction false} SurvivorsWerePlanned(ids: seq<Id>, members: seq<Member>, launch: Id -> Outcome, id: Id)
    requires id in Survivors(ids, members, launch)
    ensures id in ids
    decreases |ids|
  {
    if id in Survivors(ids[..|ids| - 1], members, launch) {
      SurvivorsWerePlanned(ids[..|ids| - 1], members, launch, id);
    }
  }

  lemma {:induction false} RecoveriesSay(order: seq<Id>, pending: set<Id>, members: seq<Member>,
                                         delivers: Id -> bool, e: Effect)
    requires e in RecoveriesOf(order, pending, members, delivers)
    ensures e.id in order && !e.Relaunched? && !e.Recorded? && !e.Nudged?
    ensures e.Briefed? || e.BriefingFailed? ==> HasBriefing(members, e.id)
    decreases |order|
  {
    if e in RecoveriesOf(order[..|order| - 1], pending, members, delivers) {
      RecoveriesSay(order[..|order| - 1], pending, members, delivers, e);
    }
  }

  lemma {:induction false} NudgesSay(ids: seq<Id>, members: seq<Member>, briefed: set<Id>, e: Effect)
    requires e in Nudges(ids, members, briefed)
    ensures e.Nudged?
    decreases |ids|
  {
    if e in Nudges(ids[..|ids| - 1], members, briefed) {
      NudgesSay(ids[..|ids| - 1], members, briefed, e);
    }
  }

  lemma WorkerStageSays(plan: Plan, env: Env, e: Effect)
    requires e in WorkerStage(plan, env)
    ensures e.id in plan.workers && !e.Began? && !e.MarkedSent?
  {
    if e in Relaunches(plan.workers, env.first, env.launch) {
      RelaunchesSay(plan.workers, env.first, env.launch, e);
    } else {
      BriefingsSay(Survivors(plan.workers, env.first, env.launch), env.second, env.toWorker, e);
      SurvivorsWerePlanned(plan.workers, env.first, env.launch, e.id);
    }
  }

  /** What follows the worker stage relaunches orchestrators only. */
  lemma AfterWorkersOnlyOrchestrators(plan: Plan, env: Env, order: seq<Id>, i: nat)
    requires |WorkerStage(plan, env)| <= i < |Run(plan, env, order)|
    ensures Run(plan, env, order)[i].Relaunched? ==> Run(plan, env, order)[i].id in plan.orchestrators
  {
    var run := Run(plan, env, order);
    var a, b, c := WorkerStage(plan, env), OrchestratorStage(plan, env), BriefingStage(plan, env, order);
    var live := Survivors(plan.workers, env.first, env.launch) + Survivors(plan.orchestrators, env.second, env.launch);
    var d := Nudges(live, env.third, BriefedIn(BeforeNudges(plan, env, order)));
    assert run == a + b + c + d;
    if i < |a| + |b| {
      assert run[i] in b;
      RelaunchesSay(plan.orchestrators, env.second, env.launch, run[i]);
    } else if i < |a| + |b| + |c| {
      assert run[i] in c;
      RecoveriesSay(order, plan.pending, env.third, env.toOrchestrator, run[i]);
    } else {
      assert run[i] in d;
      NudgesSay(live, env.third, BriefedIn(BeforeNudges(plan, env, order)), run[i]);
    }
  }

  predicate PlansApart(plan: Plan) {
    forall id :: id in plan.workers ==> id !in plan.orchestrators
  }

  /** The end of the worker stage parts the relaunches. */
  lemma WorkerStageParts(plan: Plan, env: Env, order: seq<Id>, i: nat)
    requires PlansApart(plan) && i < |Run(plan, env, order)| && Run(plan, env, order)[i].Relaunched?
    ensures Run(plan, env, order)[i].id in plan.workers <==> i < |WorkerStage(plan, env)|
    ensures Run(plan, env, order)[i].id in plan.orchestrators <==> i >= |WorkerStage(plan, env)|
  {
    if i < |WorkerStage(plan, env)| {
      assert Run(plan, env, order)[i] == WorkerStage(plan, env)[i];
      WorkerStageSays(plan, env, Run(plan, env, order)[i]);
    } else {
      AfterWorkersOnlyOrchestrators(plan, env, order, i);
    }
  }

  /** The worker was known, and its launch did not fail. */
  predicate CameBack(env: Env, w: Id) {
    Find(env.first, w).Some? && !env.launch(w).Failed?
  }

  lemma WorkerStageBriefs(plan: Plan, env: Env, w: Id)
    requires w in plan.workers && CameBack(env, w) && HasBriefing(env.second, w)
    ensures Tried(w, env.toWorker) in WorkerStage(plan, env)
  {
    SurvivorsReach(plan.workers, env.first, env.launch, w);
    BriefingsReach(Survivors(plan.workers, env.first, env.launch), env.second, env.toWorker, w);
  }

  lemma RunStartsWithWorkers(plan: Plan, env: Env, order: seq<Id>, i: nat, e: Effect)
    requires e in WorkerStage(plan, env) && |WorkerStage(plan, env)| <= i <= |Run(plan, env, order)|
    ensures e in Run(plan, env, order)[..i]
  {
    var k :| 0 <= k < |WorkerStage(plan, env)| && WorkerStage(plan, env)[k] == e;
    assert Run(plan, env, order)[..i][k] == e;
  }

  /** In every run, whatever is relaunched as an orchestrator comes after everything relaunched as a worker, and after
      the briefing of every worker that came back was tried. */
  lemma WorkersComeFirst(recoveries: Recoveries, only: set<Id>, env: Env, order: seq<Id>, i: nat)
    requires UniqueIds(env.first)
    requires var plan := PlanOf(recoveries, env.first, only);
             var run := Run(plan, env, order);
             i < |run| && run[i].Relaunched? && run[i].id in plan.orchestrators
    ensures var plan := PlanOf(recoveries, env.first, only);
            var run := Run(plan, env, order);
            (forall j :: 0 <= j < |run| && run[j].Relaunched? && run[j].id in plan.workers ==> j < i)
            && forall w :: w in plan.workers && CameBack(env, w) && HasBriefing(env.second, w) ==>
                             Tried(w, env.toWorker) in run[..i]
  {
    var plan := PlanOf(recoveries, env.first, only);
    var run := Run(plan, env, order);
    forall id | id in plan.workers ensures id !in plan.orchestrators {
      StepsAreDisjoint(env.first, only, id);
    }
    WorkerStageParts(plan, env, order, i);
    forall j | 0 <= j < |run| && run[j].Relaunched? && run[j].id in plan.workers ensures j < i {
      WorkerStageParts(plan, env, order, j);
    }
    forall w | w in plan.workers && CameBack(env, w) && HasBriefing(env.second, w)
      ensures Tried(w, env.toWorker) in run[..i]
    {
      WorkerStageBriefs(plan, env, w);
      RunStartsWithWorkers(plan, env, order, i, Tried(w, env.toWorker));
    }
  }

  // ---------------------------------------------------------------- a sent mark implies a delivered briefing

  predicate MarkedAfterBriefed(log: seq<Effect>) {
    forall j :: 0 <= j < |log| && log[j].MarkedSent? ==> j > 0 && log[j - 1] == Briefed(log[j].id)
  }

  lemma NoMarks(log: seq<Effect>)
    requires forall e :: e in log ==> !e.MarkedSent?
    ensures MarkedAfterBriefed(log)
  {
    forall j | 0 <= j < |log| ensures !log[j].MarkedSent? {
      assert log[j] in log;
    }
  }

  lemma MarksConcat(xs: seq<Effect>, ys: seq<Effect>)
    requires MarkedAfterBriefed(xs) && MarkedAfterBriefed(ys)
    ensures MarkedAfterBriefed(xs + ys)
  {
    forall j | 0 <= j < |xs + ys| && (xs + ys)[j].MarkedSent?
      ensures j > 0 && (xs + ys)[j - 1] == Briefed((xs + ys)[j].id)
    {
      if j >= |xs| {
        assert (xs + ys)[j] == ys[j - |xs|];
      }
    }
  }

  lemma RecoveryMarks(o: Id, pending: set<Id>, members: seq<Member>, delivers: Id -> bool)
    ensures MarkedAfterBriefed(RecoveryOf(o, pending, members, delivers))
  {
  }

  lemma {:induction false} RecoveriesMark(order: seq<Id>, pending: set<Id>, members: seq<Member>, delivers: Id -> bool)
    ensures MarkedAfterBriefed(RecoveriesOf(order, pending, members, delivers))
    decreases |order|
  {
    if order != [] {
      RecoveriesMark(order[..|order| - 1], pending, members, delivers);
      RecoveryMarks(order[|order| - 1], pending, members, delivers);
      MarksConcat(RecoveriesOf(order[..|order| - 1], pending, members, delivers),
                  RecoveryOf(order[|order| - 1], pending, members, delivers));
    }
  }

  lemma RunMarks(plan: Plan, env: Env, order: seq<Id>)
    ensures MarkedAfterBriefed(Run(plan, env, order))
  {
    var a, b, c := WorkerStage(plan, env), OrchestratorStage(plan, env), BriefingStage(plan, env, order);
    var live := Survivors(plan.workers, env.first, env.launch) + Survivors(plan.orchestrators, env.second, env.launch);
    var d := Nudges(live, env.third, BriefedIn(BeforeNudges(plan, env, order)));
    forall e: Effect | e in a + b ensures !e.MarkedSent? {
      if e in a {
        WorkerStageSays(plan, env, e);
      } else {
        RelaunchesSay(plan.orchestrators, env.second, env.launch, e);
      }
    }
    forall e: Effect | e in d ensures !e.MarkedSent? {
      NudgesSay(live, env.third, BriefedIn(BeforeNudges(plan, env, order)), e);
    }
    NoMarks(a + b);
    NoMarks(d);
    RecoveriesMark(order, plan.pending, env.third, env.toOrchestrator);
    MarksConcat(a + b, c);
    MarksConcat(a + b + c, d);
  }

  /** One restore that stops, by crash or error, after `cut` effects, or runs to its end. */
  datatype Attempt = Attempt(only: set<Id>, env: Env, order: seq<Id>, cut: nat)

  function AttemptLog(recoveries: Recoveries, a: Attempt): seq<Effect> {
    var run := Run(PlanOf(recoveries, a.env.first, a.only), a.env, a.order);
    if a.cut <= |run| then run[..a.cut] else run
  }

  /** Everything that a series of restores did. The lock keeps them from racing each other. */
  function History(attempts: seq<Attempt>): seq<Effect> {
    if attempts == [] then []
    else
      var before := History(attempts[..|attempts| - 1]);
      before + AttemptLog(Stored(map[], before), attempts[|attempts| - 1])
  }

  lemma {:induction false} HistoryMarks(attempts: seq<Attempt>)
    ensures MarkedAfterBriefed(History(attempts))
    decreases |attempts|
  {
    if attempts != [] {
      var before := History(attempts[..|attempts| - 1]);
      var a := attempts[|attempts| - 1];
      HistoryMarks(attempts[..|attempts| - 1]);
      RunMarks(PlanOf(Stored(map[], before), a.env.first, a.only), a.env, a.order);
      MarksConcat(before, AttemptLog(Stored(map[], before), a));
    }
  }

  /** The briefing was delivered since the recovery was last begun. */
  ghost predicate DeliveredSinceBegun(log: seq<Effect>, o: Id) {
    exists i :: 0 <= i < |log| && log[i] == Briefed(o) && Began(o) !in log[i..]
  }

  lemma {:induction false} MarkNeedsBriefing(log: seq<Effect>, o: Id)
    requires MarkedAfterBriefed(log) && o in Stored(map[], log) && Stored(map[], log)[o]
    ensures DeliveredSinceBegun(log, o)
    decreases |log|
  {
    var front, e := log[..|log| - 1], log[|log| - 1];
    if e == MarkedSent(o) {
      assert log[|log| - 2] == Briefed(o) && Began(o) !in log[|log| - 2..];
    } else {
      MarkNeedsBriefing(front, o);
      var i :| 0 <= i < |front| && front[i] == Briefed(o) && Began(o) !in front[i..];
      assert log[i..] == front[i..] + [e];
    }
  }

  /** After any series of restores, crashed or not, a briefing recorded as sent was delivered since its recovery was
      begun. */
  lemma SentMeansDelivered(attempts: seq<Attempt>, o: Id)
    requires o in Stored(map[], History(attempts)) && Stored(map[], History(attempts))[o]
    ensures DeliveredSinceBegun(History(attempts), o)
  {
    HistoryMarks(attempts);
    MarkNeedsBriefing(History(attempts), o);
  }

  lemma {:induction false} BegunIsRemembered(recoveries: Recoveries, log: seq<Effect>, o: Id)
    requires o in recoveries || Began(o) in log
    ensures o in Stored(recoveries, log)
    decreases |log|
  {
    if log != [] && log[|log| - 1] != Began(o) {
      BegunIsRemembered(recoveries, log[..|log| - 1], o);
    }
  }

  // ---------------------------------------------------------------- at-least-once briefing

  lemma {:induction false} StoresNothing(recoveries: Recoveries, log: seq<Effect>)
    requires forall e :: e in log ==> !e.Began? && !e.MarkedSent?
    ensures Stored(recoveries, log) == recoveries
    decreases |log|
  {
    if log != [] {
      assert log[|log| - 1] in log;
      StoresNothing(recoveries, log[..|log| - 1]);
    }
  }

  /** Nothing is stored before the orchestrators are briefed. */
  lemma StagesStoreNothing(recoveries: Recoveries, plan: Plan, env: Env)
    ensures Stored(recoveries, WorkerStage(plan, env) + OrchestratorStage(plan, env)) == recoveries
  {
    forall e: Effect | e in WorkerStage(plan, env) + OrchestratorStage(plan, env) ensures !e.Began? && !e.MarkedSent? {
      if e in WorkerStage(plan, env) {
        WorkerStageSays(plan, env, e);
      } else {
        RelaunchesSay(plan.orchestrators, env.second, env.launch, e);
      }
    }
    StoresNothing(recoveries, WorkerStage(plan, env) + OrchestratorStage(plan, env));
  }

  lemma BeginningStores(recoveries: Recoveries, o: Id)
    ensures Stored(recoveries, [Began(o)]) == recoveries[o := false]
  {
    StoredSnoc(recoveries, [], Began(o));
    assert [] + [Began(o)] == [Began(o)];
  }

  lemma MarkingStores(recoveries: Recoveries, o: Id)
    requires o in recoveries
    ensures Stored(recoveries, [MarkedSent(o), MarkedListed(o)]) == recoveries[o := true]
  {
    StoredSnoc(recoveries, [MarkedSent(o)], MarkedListed(o));
    StoredSnoc(recoveries, [], MarkedSent(o));
    assert [] + [MarkedSent(o)] == [MarkedSent(o)];
    assert [MarkedSent(o)] + [MarkedListed(o)] == [MarkedSent(o), MarkedListed(o)];
  }

  lemma TryingStoresNothing(recoveries: Recoveries, o: Id, members: seq<Member>, delivers: Id -> bool)
    ensures Stored(recoveries, BriefingOf(o, members, delivers)) == recoveries
  {
    StoresNothing(recoveries, BriefingOf(o, members, delivers));
  }

  lemma StoredThrice(recoveries: Recoveries, a: seq<Effect>, b: seq<Effect>, c: seq<Effect>)
    ensures Stored(recoveries, a + b + c) == Stored(Stored(Stored(recoveries, a), b), c)
  {
    StoredConcat(recoveries, a + b, c);
    StoredConcat(recoveries, a, b);
  }

  lemma RecoveryStores(recoveries: Recoveries, o: Id, pending: set<Id>, members: seq<Member>, delivers: Id -> bool)
    requires o in pending ==> o in recoveries && !recoveries[o]
    ensures Stored(recoveries, RecoveryOf(o, pending, members, delivers))
            == recoveries[o := HasBriefing(members, o) && delivers(o)]
  {
    var a := if o in pending then [] else [Began(o)];
    var c := if HasBriefing(members, o) && delivers(o) then [MarkedSent(o), MarkedListed(o)] else [];
    StoredThrice(recoveries, a, BriefingOf(o, members, delivers), c);
    BeginningStores(recoveries, o);
    TryingStoresNothing(recoveries[o := false], o, members, delivers);
    MarkingStores(recoveries[o := false], o);
    assert o in pending ==> recoveries[o := false] == recoveries;
  }

  ghost predicate Settles(before: Recoveries, after: Recoveries, order: seq<Id>, members: seq<Member>,
                          delivers: Id -> bool) {
    (forall o :: o in after <==> o in before || o in order)
    && forall o :: o in after ==> after[o] == if o in order then HasBriefing(members, o) && delivers(o) else before[o]
  }

  lemma SettlesSnoc(before: Recoveries, after: Recoveries, order: seq<Id>, members: seq<Member>,
                    delivers: Id -> bool, o: Id)
    requires Settles(before, after, order, members, delivers) && o !in order
    ensures Settles(before, after[o := HasBriefing(members, o) && delivers(o)], order + [o], members, delivers)
  {
  }

  lemma {:induction false} RecoveriesStore(recoveries: Recoveries, order: seq<Id>, pending: set<Id>,
                                           members: seq<Member>, delivers: Id -> bool)
    requires Ascending(order) && forall o :: o in pending ==> o in recoveries && !recoveries[o]
    ensures Settles(recoveries, Stored(recoveries, RecoveriesOf(order, pending, members, delivers)), order, members,
                    delivers)
    decreases |order|
  {
    if order != [] {
      var front, o := order[..|order| - 1], order[|order| - 1];
      RecoveriesStore(recoveries, front, pending, members, delivers);
      var r := Stored(recoveries, RecoveriesOf(front, pending, members, delivers));
      BeforeIsStrict(o);
      assert order == front + [o] && o !in front;
      RecoveryStores(r, o, pending, members, delivers);
      StoredConcat(recoveries, RecoveriesOf(front, pending, members, delivers),
                   RecoveryOf(o, pending, members, delivers));
      SettlesSnoc(recoveries, r, front, members, delivers, o);
    }
  }

  /** A complete run leaves every target's recovery begun, and marked as sent exactly when there was a briefing for it
      and its delivery succeeded; the other recoveries stay as they were. */
  lemma CompleteRunSettlesRecoveries(recoveries: Recoveries, only: set<Id>, env: Env, order: seq<Id>)
    requires Lists(order, PlanOf(recoveries, env.first, only), env.third)
    ensures var run := Run(PlanOf(recoveries, env.first, only), env, order);
            Settles(recoveries, Stored(recoveries, run), order, env.third, env.toOrchestrator)
  {
    var plan := PlanOf(recoveries, env.first, only);
    var a, c := WorkerStage(plan, env) + OrchestratorStage(plan, env), BriefingStage(plan, env, order);
    var live := Survivors(plan.workers, env.first, env.launch) + Survivors(plan.orchestrators, env.second, env.launch);
    var d := Nudges(live, env.third, BriefedIn(BeforeNudges(plan, env, order)));
    StagesStoreNothing(recoveries, plan, env);
    StoredConcat(recoveries, a, c);
    RecoveriesStore(recoveries, order, plan.pending, env.third, env.toOrchestrator);
    forall e: Effect | e in d ensures !e.Began? && !e.MarkedSent? {
      NudgesSay(live, env.third, BriefedIn(BeforeNudges(plan, env, order)), e);
    }
    StoredConcat(recoveries, a + c, d);
    StoresNothing(Stored(recoveries, a + c), d);
  }

  lemma {:induction false} RecoveriesReach(order: seq<Id>, pending: set<Id>, members: seq<Member>,
                                           delivers: Id -> bool, o: Id)
    requires o in order && HasBriefing(members, o)
    ensures Tried(o, delivers) in RecoveriesOf(order, pending, members, delivers)
    decreases |order|
  {
    if o == order[|order| - 1] {
      assert Tried(o, delivers) in BriefingOf(o, members, delivers);
    } else {
      RecoveriesReach(order[..|order| - 1], pending, members, delivers, o);
    }
  }

  /** Whatever restores came before: an orchestrator whose recovery they began, and which was not marked as sent, is
      briefed again by the next complete run that includes it while it is live; the mark then says whether it worked. */
  lemma BegunBriefingsAreRetried(attempts: seq<Attempt>, only: set<Id>, env: Env, order: seq<Id>, o: Id)
    requires Began(o) in History(attempts) && Selected(only, o)
    requires var recoveries := Stored(map[], History(attempts));
             (o in recoveries ==> !recoveries[o]) && Lists(order, PlanOf(recoveries, env.first, only), env.third)
    requires IsLive(env.first, o) && IsLive(env.third, o) && HasBriefing(env.third, o)
    ensures var recoveries := Stored(map[], History(attempts));
            var plan := PlanOf(recoveries, env.first, only);
            var after := Stored(recoveries, Run(plan, env, order));
            Tried(o, env.toOrchestrator) in BriefingStage(plan, env, order)
            && o in after && after[o] == env.toOrchestrator(o)
  {
    var recoveries := Stored(map[], History(attempts));
    var plan := PlanOf(recoveries, env.first, only);
    BegunIsRemembered(map[], History(attempts), o);
    assert IsTarget(plan, env.third, o) && o in order;
    RecoveriesReach(order, plan.pending, env.third, env.toOrchestrator, o);
    CompleteRunSettlesRecoveries(recoveries, only, env, order);
  }

  // ---------------------------------------------------------------- what is not retried

  /** A briefing of `o` was delivered or failed. */
  predicate Attempted(log: seq<Effect>, o: Id) {
    Briefed(o) in log || BriefingFailed(o) in log
  }

  lemma LiveIsNotPlanned(members: seq<Member>, only: set<Id>, o: Id)
    requires UniqueIds(members) && IsLive(members, o)
    ensures o !in Steps(members, only, true) && o !in Steps(members, only, false)
  {
    var live := Find(members, o).value;
    forall m | m in members && m.id == o ensures !Restorable(m, only) {
      SameMember(members, m, live);
    }
    if o in Steps(members, only, true) {
      StepsAreMembers(members, only, true, o);
    }
    if o in Steps(members, only, false) {
      StepsAreMembers(members, only, false, o);
    }
  }

  /** Outside the worker stage only targets with a briefing are briefed. */
  lemma AttemptsAreForTargets(plan: Plan, env: Env, order: seq<Id>, o: Id)
    requires o !in plan.workers && Attempted(Run(plan, env, order), o)
    ensures o in order && HasBriefing(env.third, o)
  {
    var e := if Briefed(o) in Run(plan, env, order) then Briefed(o) else BriefingFailed(o);
    var a, b, c := WorkerStage(plan, env), OrchestratorStage(plan, env), BriefingStage(plan, env, order);
    var live := Survivors(plan.workers, env.first, env.launch) + Survivors(plan.orchestrators, env.second, env.launch);
    var d := Nudges(live, env.third, BriefedIn(BeforeNudges(plan, env, order)));
    assert e in a || e in b || e in c || e in d;
    if e in a {
      WorkerStageSays(plan, env, e);
    }
    if e in b {
      RelaunchesSay(plan.orchestrators, env.second, env.launch, e);
    }
    if e in d {
      NudgesSay(live, env.third, BriefedIn(BeforeNudges(plan, env, order)), e);
    }
    if e in c {
      RecoveriesSay(order, plan.pending, env.third, env.toOrchestrator, e);
    }
  }

  /** An orchestrator that was live all along, none of whose workers is restored, is briefed exactly when its recovery
      was begun and not marked as sent, and there is a briefing for it. */
  lemma LiveOrchestratorsAreBriefedExactly(recoveries: Recoveries, only: set<Id>, env: Env, order: seq<Id>, o: Id)
    requires UniqueIds(env.first) && Selected(only, o) && IsLive(env.first, o) && IsLive(env.third, o)
    requires var plan := PlanOf(recoveries, env.first, only);
             Lists(order, plan, env.third) && forall w :: w in plan.workers ==> !OwnsStep(env.third, w, o)
    ensures var plan := PlanOf(recoveries, env.first, only);
            var owed := o in recoveries && !recoveries[o] && HasBriefing(env.third, o);
            (Attempted(Run(plan, env, order), o) <==> owed)
            && (owed ==> Tried(o, env.toOrchestrator) in BriefingStage(plan, env, order))
  {
    var plan := PlanOf(recoveries, env.first, only);
    LiveIsNotPlanned(env.first, only, o);
    assert o in order <==> IsTarget(plan, env.third, o);
    if Attempted(Run(plan, env, order), o) {
      AttemptsAreForTargets(plan, env, order, o);
    }
    if o in order && HasBriefing(env.third, o) {
      RecoveriesReach(order, plan.pending, env.third, env.toOrchestrator, o);
      assert Tried(o, env.toOrchestrator) in Run(plan, env, order);
    }
  }

  /** A run that stops before the orchestrators are briefed stores nothing. */
  lemma StoppedEarlyStoresNothing(recoveries: Recoveries, crashed: Attempt)
    requires var plan := PlanOf(recoveries, crashed.env.first, crashed.only);
             crashed.cut <= |WorkerStage(plan, crashed.env) + OrchestratorStage(plan, crashed.env)|
    ensures Stored(recoveries, AttemptLog(recoveries, crashed)) == recoveries
  {
    var plan := PlanOf(recoveries, crashed.env.first, crashed.only);
    var log := AttemptLog(recoveries, crashed);
    var stages := WorkerStage(plan, crashed.env) + OrchestratorStage(plan, crashed.env);
    assert log == stages[..crashed.cut];
    forall e: Effect | e in log ensures !e.Began? && !e.MarkedSent? {
      assert e in stages;
      if e in WorkerStage(plan, crashed.env) {
        WorkerStageSays(plan, crashed.env, e);
      } else {
        RelaunchesSay(plan.orchestrators, crashed.env.second, crashed.env.launch, e);
      }
    }
    StoresNothing(recoveries, log);
  }

  /** So a run that stops after relaunching an orchestrator and before beginning its recovery leaves no trace of the
      briefing it owed: the next run, finding the orchestrator live, does not brief it. */
  lemma RelaunchedButNotBegunIsNotRetried(recoveries: Recoveries, crashed: Attempt, only: set<Id>, env: Env,
                                          order: seq<Id>, o: Id)
    requires var plan := PlanOf(recoveries, crashed.env.first, crashed.only);
             crashed.cut <= |WorkerStage(plan, crashed.env) + OrchestratorStage(plan, crashed.env)|
             && exists outcome :: Relaunched(o, outcome) in AttemptLog(recoveries, crashed)
    requires o !in recoveries && UniqueIds(env.first) && Selected(only, o) && IsLive(env.first, o)
             && IsLive(env.third, o)
    requires var plan := PlanOf(Stored(recoveries, AttemptLog(recoveries, crashed)), env.first, only);
             Lists(order, plan, env.third) && forall w :: w in plan.workers ==> !OwnsStep(env.third, w, o)
    ensures var after := Stored(recoveries, AttemptLog(recoveries, crashed));
            o !in after && !Attempted(Run(PlanOf(after, env.first, only), env, order), o)
  {
    StoppedEarlyStoresNothing(recoveries, crashed);
    LiveOrchestratorsAreBriefedExactly(recoveries, only, env, order, o);
  }

  // ---------------------------------------------------------------- a run that loses a briefing

  function Alone(o: Id, life: Life): seq<Member> {
    [Member(o, Role.Orchestrator, life, None, false, 0)]
  }

  /** A fleet of one orchestrator whose launches and deliveries all succeed. */
  function AllGoesWell(o: Id, life: Life): Env {
    Env(Alone(o, life), Alone(o, life), Alone(o, Live), (id: Id) => Resumed, (id: Id) => true, (id: Id) => true)
  }

  /** A restore that stops once it has relaunched the orchestrator. */
  function Crashed(o: Id): Attempt {
    Attempt({}, AllGoesWell(o, Awaiting(false)), [o], 2)
  }

  /** A restore that finds the orchestrator live and runs to its end. */
  function Complete(o: Id): Attempt {
    Attempt({}, AllGoesWell(o, Live), [], 0)
  }

  /** A run over the snapshot's plan that visits its targets and is not cut off. */
  ghost predicate RunsToItsEnd(recoveries: Recoveries, a: Attempt) {
    var plan := PlanOf(recoveries, a.env.first, a.only);
    Lists(a.order, plan, a.env.third) && AttemptLog(recoveries, a) == Run(plan, a.env, a.order)
  }

  lemma PlanForOne(o: Id, life: Life)
    ensures PlanOf(map[], Alone(o, life), {}) == Plan([], if life == Awaiting(false) then [o] else [], {})
  {
    var members := Alone(o, life);
    assert members[..|members| - 1] == [];
    assert Steps([], {}, true) == [] && Steps([], {}, false) == [];
    assert Pending(map[], members, {}) == {};
  }

  lemma RunBeginsWithStages(plan: Plan, env: Env, order: seq<Id>)
    ensures var stages := WorkerStage(plan, env) + OrchestratorStage(plan, env);
            |stages| <= |Run(plan, env, order)| && Run(plan, env, order)[..|stages|] == stages
  {
  }

  lemma FirstRunRelaunches(o: Id)
    ensures History([Crashed(o)]) == [Relaunched(o, Resumed), Recorded(o, Resumed)]
  {
    var crashed, env := Crashed(o), AllGoesWell(o, Awaiting(false));
    PlanForOne(o, Awaiting(false));
    var plan := Plan([], [o], {});
    assert WorkerStage(plan, env) == [];
    assert [o][..0] == [] && OrchestratorStage(plan, env) == [Relaunched(o, Resumed), Recorded(o, Resumed)];
    RunBeginsWithStages(plan, env, [o]);
    assert [crashed][..0] == [] && History([]) == [] && Stored(map[], []) == map[];
  }

  lemma TargetsOfOne(o: Id)
    ensures Lists([o], Plan([], [o], {}), Alone(o, Live)) && Lists([], Plan([], [], {}), Alone(o, Live))
  {
  }

  lemma HistorySnoc(attempts: seq<Attempt>, a: Attempt)
    ensures History(attempts + [a]) == History(attempts) + AttemptLog(Stored(map[], History(attempts)), a)
  {
    assert (attempts + [a])[..|attempts + [a]| - 1] == attempts;
  }

  lemma SecondRunDoesNothing(o: Id)
    ensures RunsToItsEnd(map[], Complete(o)) && AttemptLog(map[], Complete(o)) == []
  {
    PlanForOne(o, Live);
    TargetsOfOne(o);
    assert Run(Plan([], [], {}), AllGoesWell(o, Live), []) == [];
  }

  lemma NothingIsStored(o: Id)
    ensures Stored(map[], History([Crashed(o)])) == map[]
  {
    FirstRunRelaunches(o);
    StoresNothing(map[], History([Crashed(o)]));
  }

  lemma BothRuns(o: Id)
    ensures History([Crashed(o)] + [Complete(o)]) == [Relaunched(o, Resumed), Recorded(o, Resumed)]
  {
    HistorySnoc([Crashed(o)], Complete(o));
    NothingIsStored(o);
    FirstRunRelaunches(o);
    SecondRunDoesNothing(o);
  }

  lemma WasATarget(o: Id)
    ensures Lists([o], PlanOf(map[], Crashed(o).env.first, {}), Crashed(o).env.third)
  {
    PlanForOne(o, Awaiting(false));
    TargetsOfOne(o);
  }

  lemma SecondRunIsComplete(o: Id)
    ensures RunsToItsEnd(Stored(map[], History([Crashed(o)])), Complete(o))
  {
    NothingIsStored(o);
    SecondRunDoesNothing(o);
  }

  lemma NothingIsTried(o: Id, log: seq<Effect>)
    requires log == [Relaunched(o, Resumed), Recorded(o, Resumed)]
    ensures !Attempted(log, o)
  {
  }

  /** What it takes to lose a briefing: `first`, which had `o` among its targets, relaunches it; `second` runs to its
      end while it is live; neither tries to brief it. */
  ghost predicate LosesBriefing(first: Attempt, second: Attempt, o: Id) {
    Relaunched(o, Resumed) in History([first])
    && Lists(first.order, PlanOf(map[], first.env.first, first.only), first.env.third) && o in first.order
    && IsLive(second.env.first, o) && IsLive(second.env.third, o)
    && RunsToItsEnd(Stored(map[], History([first])), second)
    && !Attempted(History([first] + [second]), o)
  }

  /** For every orchestrator two restores can lose its briefing. */
  lemma ABriefingIsLost(o: Id)
    ensures exists first, second :: LosesBriefing(first, second, o)
  {
    var first, second := Crashed(o), Complete(o);
    assert Relaunched(o, Resumed) in History([first]) by {
      FirstRunRelaunches(o);
    }
    assert Lists(first.order, PlanOf(map[], first.env.first, first.only), first.env.third) by {
      WasATarget(o);
    }
    assert RunsToItsEnd(Stored(map[], History([first])), second) by {
      SecondRunIsComplete(o);
    }
    assert !Attempted(History([first] + [second]), o) by {
      BothRuns(o);
      NothingIsTried(o, History([first] + [second]));
    }
    assert LosesBriefing(first, second, o);
  }
}
