/** `ninox restart`: the order of a batch, and what its summary says. */
module BatchRestart {
  import opened NinoxTypes
  import opened Sorting

  /** Workers come back before orchestrators; the caller's own session goes last. */
  function Rank(orchestrators: set<SessionId>, self: Option<SessionId>, id: SessionId): int {
    if self == Some(id) then 2 else if id in orchestrators then 1 else 0
  }

  function IsWorker(orchestrators: set<SessionId>, self: Option<SessionId>): SessionId -> bool {
    (id: SessionId) => id !in orchestrators && self != Some(id)
  }

  function IsOrchestrator(orchestrators: set<SessionId>, self: Option<SessionId>): SessionId -> bool {
    (id: SessionId) => id in orchestrators && self != Some(id)
  }

  function OrderedTargets(ids: seq<SessionId>, orchestrators: set<SessionId>, self: Option<SessionId>): seq<SessionId> {
    Filter(IsWorker(orchestrators, self), ids)
    + Filter(IsOrchestrator(orchestrators, self), ids)
    + if self.Some? && self.value in ids then [self.value] else []
  }

  // ---------------------------------------------------------------- the order

  lemma {:induction false} FilterKeeps<T>(p: T -> bool, xs: seq<T>, x: T)
    ensures multiset(Filter(p, xs))[x] == if p(x) then multiset(xs)[x] else 0
  {
    if xs != [] {
      assert xs == [xs[0]] + xs[1..];
      FilterKeeps(p, xs[1..], x);
    }
  }

  lemma {:induction false} FilterAll<T>(p: T -> bool, xs: seq<T>)
    requires forall x :: x in xs ==> p(x)
    ensures Filter(p, xs) == xs
  {
    if xs != [] {
      FilterAll(p, xs[1..]);
    }
  }

  lemma {:induction false} FilterNone<T>(p: T -> bool, xs: seq<T>)
    requires forall x :: x in xs ==> !p(x)
    ensures Filter(p, xs) == []
  {
    if xs != [] {
      FilterNone(p, xs[1..]);
    }
  }

  lemma {:induction false} FilterSatisfies<T>(p: T -> bool, xs: seq<T>, x: T)
    ensures x in Filter(p, xs) <==> x in xs && p(x)
  {
    if xs != [] {
      assert x in xs <==> x == xs[0] || x in xs[1..];
      FilterSatisfies(p, xs[1..], x);
    }
  }

  /** The batch restarts what was asked for, as often as it was asked for, except that the caller is restarted once. */
  lemma BatchIsTheRequest(ids: seq<SessionId>, orchestrators: set<SessionId>, self: Option<SessionId>, id: SessionId)
    ensures multiset(OrderedTargets(ids, orchestrators, self))[id]
            == if self == Some(id) && id in ids then 1 else multiset(ids)[id]
  {
    FilterKeeps(IsWorker(orchestrators, self), ids, id);
    FilterKeeps(IsOrchestrator(orchestrators, self), ids, id);
    assert id in ids <==> id in multiset(ids);
  }

  lemma RankOfPart(ids: seq<SessionId>, orchestrators: set<SessionId>, self: Option<SessionId>, i: nat)
    requires i < |OrderedTargets(ids, orchestrators, self)|
    ensures var workers := |Filter(IsWorker(orchestrators, self), ids)|;
            var both := workers + |Filter(IsOrchestrator(orchestrators, self), ids)|;
            Rank(orchestrators, self, OrderedTargets(ids, orchestrators, self)[i])
            == if i < workers then 0 else if i < both then 1 else 2
  {
    var id := OrderedTargets(ids, orchestrators, self)[i];
    var a, b := Filter(IsWorker(orchestrators, self), ids), Filter(IsOrchestrator(orchestrators, self), ids);
    if i < |a| {
      assert id in a;
      FilterSatisfies(IsWorker(orchestrators, self), ids, id);
    } else if i < |a| + |b| {
      assert id in b;
      FilterSatisfies(IsOrchestrator(orchestrators, self), ids, id);
    }
  }

  /** Workers come before orchestrators, and the caller's own session comes last and once. */
  lemma WorkersThenOrchestratorsThenCaller(ids: seq<SessionId>, orchestrators: set<SessionId>, self: Option<SessionId>)
    ensures var ordered := OrderedTargets(ids, orchestrators, self);
            (forall i, j :: 0 <= i < j < |ordered| && self != Some(ordered[j]) && ordered[j] !in orchestrators ==>
               self != Some(ordered[i]) && ordered[i] !in orchestrators)
            && (forall i :: 0 <= i < |ordered| && self == Some(ordered[i]) ==> i == |ordered| - 1)
            && (self.Some? && self.value in ids <==> ordered != [] && self == Some(ordered[|ordered| - 1]))
  {
    var ordered := OrderedTargets(ids, orchestrators, self);
    forall i | 0 <= i < |ordered|
      ensures var workers := |Filter(IsWorker(orchestrators, self), ids)|;
              var both := workers + |Filter(IsOrchestrator(orchestrators, self), ids)|;
              Rank(orchestrators, self, ordered[i]) == if i < workers then 0 else if i < both then 1 else 2
    {
      RankOfPart(ids, orchestrators, self, i);
    }
  }

  /** Within each class the batch keeps the order of the request. */
  lemma BatchIsStable(ids: seq<SessionId>, orchestrators: set<SessionId>, self: Option<SessionId>)
    ensures var ordered := OrderedTargets(ids, orchestrators, self);
            Filter(IsWorker(orchestrators, self), ordered) == Filter(IsWorker(orchestrators, self), ids)
            && Filter(IsOrchestrator(orchestrators, self), ordered) == Filter(IsOrchestrator(orchestrators, self), ids)
  {
    var p, q := IsWorker(orchestrators, self), IsOrchestrator(orchestrators, self);
    var a, b := Filter(p, ids), Filter(q, ids);
    var c := if self.Some? && self.value in ids then [self.value] else [];
    FilterConcat(p, a + b, c);
    FilterConcat(p, a, b);
    FilterConcat(q, a + b, c);
    FilterConcat(q, a, b);
    forall id | id in a ensures p(id) && !q(id) {
      FilterSatisfies(p, ids, id);
    }
    forall id | id in b ensures q(id) && !p(id) {
      FilterSatisfies(q, ids, id);
    }
    FilterAll(p, a);
    FilterNone(p, b);
    FilterNone(p, c);
    FilterNone(q, a);
    FilterAll(q, b);
    FilterNone(q, c);
  }

  // ---------------------------------------------------------------- the batch

  datatype RestartResult = Restarted(resumed: bool) | Detached | NotLive | Unknown | Failed(why: string)

  datatype RestartOutcome = RestartOutcome(id: SessionId, result: RestartResult)

  /** What the batch does to a session: restarts it here, or leaves that to a detached helper. */
  datatype Action = RestartHere(id: SessionId) | SpawnDetached(id: SessionId)

  /** Every target is acted on once, in order; the detached restart is the last action, and there is one exactly when
      the caller is a target. */
  method Execute(ids: seq<SessionId>, orchestrators: set<SessionId>, self: Option<SessionId>,
                 restart: SessionId -> RestartResult,
                 detach: SessionId -> RestartResult)
    returns (outcomes: seq<RestartOutcome>, actions: seq<Action>)
    ensures |outcomes| == |actions| == |OrderedTargets(ids, orchestrators, self)|
    ensures forall i :: 0 <= i < |actions| ==>
              var id := OrderedTargets(ids, orchestrators, self)[i];
              actions[i] == (if self == Some(id) then SpawnDetached(id) else RestartHere(id))
              && outcomes[i] == RestartOutcome(id, if self == Some(id) then detach(id) else restart(id))
    ensures forall i :: 0 <= i < |actions| && actions[i].SpawnDetached? ==> i == |actions| - 1
    ensures (exists a :: a in actions && a.SpawnDetached?) <==> self.Some? && self.value in ids
  {
    var ordered := OrderedTargets(ids, orchestrators, self);
    WorkersThenOrchestratorsThenCaller(ids, orchestrators, self);
    outcomes, actions := [], [];
    for i := 0 to |ordered|
      invariant |outcomes| == |actions| == i
      invariant forall j :: 0 <= j < i ==>
                  actions[j] == (if self == Some(ordered[j]) then SpawnDetached(ordered[j])
                                 else RestartHere(ordered[j]))
                  && outcomes[j].id == ordered[j]
                  && outcomes[j].result == if self == Some(ordered[j]) then detach(ordered[j]) else restart(ordered[j])
    {
      var result;
      if self == Some(ordered[i]) {
        actions := actions + [SpawnDetached(ordered[i])];
        result := detach(ordered[i]);
      } else {
        actions := actions + [RestartHere(ordered[i])];
        result := restart(ordered[i]);
      }
      outcomes := outcomes + [RestartOutcome(ordered[i], result)];
    }
    assert self.Some? && self.value in ids ==> actions[|actions| - 1].SpawnDetached?;
  }

  // ---------------------------------------------------------------- the summary

  predicate Worked(result: RestartResult) {
    result.Restarted? || result.Detached?
  }

  predicate HadTrouble(outcomes: seq<RestartOutcome>) {
    exists o :: o in outcomes && !Worked(o.result)
  }

  /** Some outcome for this session was this. */
  predicate Had(outcomes: seq<RestartOutcome>, id: SessionId, results: set<RestartResult>) {
    exists o :: o in outcomes && o.id == id && o.result in results
  }

  /** What the summary line is rendered from. */
  datatype Summary =
    | AllRestarted(total: nat)
    | SomeRestarted(restarted: nat, total: nat, skipped: seq<SessionId>, failed: seq<SessionId>)

  function Ids(outcomes: seq<RestartOutcome>, p: RestartResult -> bool): seq<SessionId> {
    if outcomes == [] then []
    else
      var last := outcomes[|outcomes| - 1];
      Ids(outcomes[..|outcomes| - 1], p) + if p(last.result) then [last.id] else []
  }

  function IsSkipped(): RestartResult -> bool {
    (r: RestartResult) => r.NotLive? || r.Unknown?
  }

  function IsFailed(): RestartResult -> bool {
    (r: RestartResult) => r.Failed?
  }

  lemma {:induction false} NobodySaid(outcomes: seq<RestartOutcome>, p: RestartResult -> bool)
    ensures Ids(outcomes, p) == [] <==> forall o :: o in outcomes ==> !p(o.result)
    decreases |outcomes|
  {
    if outcomes != [] {
      NobodySaid(outcomes[..|outcomes| - 1], p);
      assert outcomes == outcomes[..|outcomes| - 1] + [outcomes[|outcomes| - 1]];
    }
  }

  lemma {:induction false} NamedExactly(outcomes: seq<RestartOutcome>, p: RestartResult -> bool, id: SessionId)
    ensures id in Ids(outcomes, p) <==> exists o :: o in outcomes && o.id == id && p(o.result)
    decreases |outcomes|
  {
    if outcomes != [] {
      NamedExactly(outcomes[..|outcomes| - 1], p, id);
      assert outcomes == outcomes[..|outcomes| - 1] + [outcomes[|outcomes| - 1]];
    }
  }

  lemma IdsSnoc(outcomes: seq<RestartOutcome>, i: nat, p: RestartResult -> bool)
    requires i < |outcomes|
    ensures Ids(outcomes[..i + 1], p)
            == Ids(outcomes[..i], p) + if p(outcomes[i].result) then [outcomes[i].id] else []
  {
    assert outcomes[..i + 1][..i] == outcomes[..i];
  }

  lemma TroubleIsNamed(outcomes: seq<RestartOutcome>)
    ensures HadTrouble(outcomes) <==> Ids(outcomes, IsSkipped()) != [] || Ids(outcomes, IsFailed()) != []
  {
    NobodySaid(outcomes, IsSkipped());
    NobodySaid(outcomes, IsFailed());
  }

  /** The summary names as no longer live the sessions that had ended or vanished when their turn came, and as failed
      those whose restart failed. */
  lemma SummaryNamesExactly(outcomes: seq<RestartOutcome>, id: SessionId)
    ensures id in Ids(outcomes, IsSkipped()) <==> Had(outcomes, id, {NotLive, Unknown})
    ensures id in Ids(outcomes, IsFailed()) <==> exists o :: o in outcomes && o.id == id && o.result.Failed?
    ensures HadTrouble(outcomes) <==> exists o :: o in outcomes && !o.result.Restarted? && !o.result.Detached?
  {
    NamedExactly(outcomes, IsSkipped(), id);
    NamedExactly(outcomes, IsFailed(), id);
  }

  /** The three tallies add up to the batch, and the summary reports trouble exactly when there was some. */
  method Summarize(outcomes: seq<RestartOutcome>) returns (s: Summary)
    ensures s.total == |outcomes| && (s.SomeRestarted? <==> HadTrouble(outcomes))
    ensures s.SomeRestarted? ==> s.restarted + |s.skipped| + |s.failed| == s.total
                                 && s.skipped == Ids(outcomes, IsSkipped()) && s.failed == Ids(outcomes, IsFailed())
  {
    var restarted: nat, skipped, failed := 0, [], [];
    for i := 0 to |outcomes|
      invariant skipped == Ids(outcomes[..i], IsSkipped()) && failed == Ids(outcomes[..i], IsFailed())
      invariant restarted + |skipped| + |failed| == i
    {
      IdsSnoc(outcomes, i, IsSkipped());
      IdsSnoc(outcomes, i, IsFailed());
      match outcomes[i].result {
        case Restarted(_) => restarted := restarted + 1;
        case Detached => restarted := restarted + 1;
        case Failed(_) => failed := failed + [outcomes[i].id];
        case _ => skipped := skipped + [outcomes[i].id];
      }
    }
    assert outcomes[..|outcomes|] == outcomes;
    TroubleIsNamed(outcomes);
    if skipped == [] && failed == [] {
      return AllRestarted(|outcomes|);
    }
    return SomeRestarted(restarted, |outcomes|, skipped, failed);
  }
}
