/** The session board's grouping of sessions under their orchestrators. */
module SessionGrouping {
  import opened NinoxTypes
  import opened Sorting

  datatype Group = Group(owner: Option<Orchestrator>, members: seq<Session>)

  /** A worker points at its orchestrator; an orchestrator's own row shares its id. */
  function OwnerOf(s: Session): SessionId {
    if s.orchestratorId.Some? then s.orchestratorId.value else s.id
  }

  /** It is a worker of this orchestrator, or, having no orchestrator, the orchestrator's own row. */
  predicate BelongsTo(s: Session, id: SessionId) {
    s.orchestratorId == Some(id) || (s.orchestratorId == None && s.id == id)
  }

  /** The first orchestrator with this id. */
  function FirstMatch(orchestrators: seq<Orchestrator>, id: SessionId): (k: Option<nat>)
    ensures k.Some? ==> k.value < |orchestrators| && orchestrators[k.value].id == id
                        && forall j :: 0 <= j < k.value ==> orchestrators[j].id != id
    ensures k.None? ==> forall j :: 0 <= j < |orchestrators| ==> orchestrators[j].id != id
  {
    if orchestrators == [] then None
    else if orchestrators[0].id == id then Some(0)
    else
      var k := FirstMatch(orchestrators[1..], id);
      if k.None? then None else Some(k.value + 1)
  }

  /** The sessions that the given orchestrator, or nobody, is the first to match, in arrival order. */
  function Members(orchestrators: seq<Orchestrator>, k: Option<nat>, sessions: seq<Session>): seq<Session> {
    if sessions == [] then []
    else
      var s := sessions[|sessions| - 1];
      Members(orchestrators, k, sessions[..|sessions| - 1])
      + if FirstMatch(orchestrators, OwnerOf(s)) == k then [s] else []
  }

  /** The owner's own row first, then by start time. */
  function BoardKey(owner: SessionId): Session -> Key {
    (s: Session) => Key(if s.id != owner then 1 else 0, s.startedAt)
  }

  function Board(orchestrators: seq<Orchestrator>, sessions: seq<Session>, k: nat): Group
    requires k < |orchestrators|
  {
    Group(Some(orchestrators[k]), StableSort(BoardKey(orchestrators[k].id), Members(orchestrators, Some(k), sessions)))
  }

  /** Every session in the groups, as often as it is there. */
  ghost function Content(groups: seq<Group>): multiset<Session> {
    if groups == [] then multiset{} else Content(groups[..|groups| - 1]) + multiset(groups[|groups| - 1].members)
  }

  lemma ContentSnoc(groups: seq<Group>, g: Group)
    ensures Content(groups + [g]) == Content(groups) + multiset(g.members)
  {
    assert (groups + [g])[..|groups + [g]| - 1] == groups;
  }

  function Put(groups: seq<Group>, k: nat, s: Session): seq<Group>
    requires k < |groups|
  {
    groups[k := groups[k].(members := groups[k].members + [s])]
  }

  lemma PutInFront(front: seq<Group>, last: Group, k: nat, s: Session)
    requires k < |front|
    ensures Put(front + [last], k, s) == Put(front, k, s) + [last]
  {
  }

  lemma PutLast(front: seq<Group>, last: Group, s: Session)
    ensures Put(front + [last], |front|, s) == front + [last.(members := last.members + [s])]
  {
  }

  lemma {:induction false} ContentUpdate(groups: seq<Group>, k: nat, s: Session)
    requires k < |groups|
    ensures Content(Put(groups, k, s)) == Content(groups) + multiset{s}
    decreases |groups|
  {
    var front, last := groups[..|groups| - 1], groups[|groups| - 1];
    assert groups == front + [last];
    if k < |front| {
      ContentUpdate(front, k, s);
      PutInFront(front, last, k, s);
      ContentSnoc(Put(front, k, s), last);
    } else {
      PutLast(front, last, s);
      ContentSnoc(front, last.(members := last.members + [s]));
    }
  }

  lemma {:induction false} SameContent(xs: seq<Group>, ys: seq<Group>)
    requires |xs| == |ys| && forall k :: 0 <= k < |xs| ==> multiset(xs[k].members) == multiset(ys[k].members)
    ensures Content(xs) == Content(ys)
    decreases |xs|
  {
    if xs != [] {
      var n := |xs| - 1;
      forall k | 0 <= k < n ensures multiset(xs[..n][k].members) == multiset(ys[..n][k].members) {
        assert xs[..n][k] == xs[k] && ys[..n][k] == ys[k];
      }
      SameContent(xs[..n], ys[..n]);
    }
  }

  function NoSessions(orchestrators: seq<Orchestrator>): (groups: seq<Group>)
    ensures |groups| == |orchestrators| && forall k :: 0 <= k < |groups| ==>
            groups[k] == Group(Some(orchestrators[k]), [])
    ensures Content(groups) == multiset{}
  {
    if orchestrators == [] then []
    else NoSessions(orchestrators[..|orchestrators| - 1]) + [Group(Some(orchestrators[|orchestrators| - 1]), [])]
  }

  /** The groups once every session has been put with its owner. */
  function Placed(orchestrators: seq<Orchestrator>, sessions: seq<Session>): (groups: seq<Group>)
    ensures |groups| == |orchestrators|
    decreases |sessions|
  {
    if sessions == [] then NoSessions(orchestrators)
    else
      var s := sessions[|sessions| - 1];
      var groups := Placed(orchestrators, sessions[..|sessions| - 1]);
      var k := FirstMatch(orchestrators, OwnerOf(s));
      if k.Some? then Put(groups, k.value, s) else groups
  }

  lemma {:induction false} PlacedMembers(orchestrators: seq<Orchestrator>, sessions: seq<Session>, k: nat)
    requires k < |orchestrators|
    ensures Placed(orchestrators, sessions)[k]
            == Group(Some(orchestrators[k]), Members(orchestrators, Some(k), sessions))
    decreases |sessions|
  {
    if sessions != [] {
      PlacedMembers(orchestrators, sessions[..|sessions| - 1], k);
    }
  }

  /** The last session is put with its owner, or stays with those that nobody owns. */
  lemma LastSessionIsPlaced(orchestrators: seq<Orchestrator>, front: seq<Session>, s: Session)
    ensures Content(Placed(orchestrators, front + [s])) + multiset(Members(orchestrators, None, front + [s]))
            == Content(Placed(orchestrators, front)) + multiset(Members(orchestrators, None, front)) + multiset{s}
  {
    assert (front + [s])[..|front + [s]| - 1] == front;
    var k := FirstMatch(orchestrators, OwnerOf(s));
    if k.Some? {
      ContentUpdate(Placed(orchestrators, front), k.value, s);
      assert Members(orchestrators, None, front + [s]) == Members(orchestrators, None, front);
    } else {
      assert Placed(orchestrators, front + [s]) == Placed(orchestrators, front);
      assert Members(orchestrators, None, front + [s]) == Members(orchestrators, None, front) + [s];
    }
  }

  lemma {:induction false} PlacedConserves(orchestrators: seq<Orchestrator>, sessions: seq<Session>)
    ensures Content(Placed(orchestrators, sessions)) + multiset(Members(orchestrators, None, sessions))
            == multiset(sessions)
    decreases |sessions|
  {
    if sessions != [] {
      var front, s := sessions[..|sessions| - 1], sessions[|sessions| - 1];
      PlacedConserves(orchestrators, front);
      assert sessions == front + [s];
      LastSessionIsPlaced(orchestrators, front, s);
    }
  }

  method Distribute(sessions: seq<Session>, orchestrators: seq<Orchestrator>)
    returns (groups: seq<Group>, ungrouped: seq<Session>)
    ensures groups == Placed(orchestrators, sessions) && ungrouped == Members(orchestrators, None, sessions)
  {
    groups := [];
    for i := 0 to |orchestrators|
      invariant groups == NoSessions(orchestrators[..i])
    {
      assert orchestrators[..i + 1][..i] == orchestrators[..i];
      groups := groups + [Group(Some(orchestrators[i]), [])];
    }
    assert orchestrators[..|orchestrators|] == orchestrators && sessions[..|sessions|] == sessions;
    ungrouped := [];
    for i := 0 to |sessions|
      invariant groups == Placed(orchestrators, sessions[..i])
                && ungrouped == Members(orchestrators, None, sessions[..i])
    {
      assert sessions[..i + 1][..i] == sessions[..i];
      match FirstMatch(orchestrators, OwnerOf(sessions[i])) {
        case Some(k) => groups := Put(groups, k, sessions[i]);
        case None => ungrouped := ungrouped + [sessions[i]];
      }
    }
  }

  /** The board: a group for every orchestrator, then one for the sessions nobody owns if there are any. */
  method GroupSessions(sessions: seq<Session>, orchestrators: seq<Orchestrator>) returns (groups: seq<Group>)
    ensures groups == Boards(orchestrators, sessions)
  {
    var ungrouped;
    groups, ungrouped := Distribute(sessions, orchestrators);
    for k := 0 to |groups|
      invariant |groups| == |orchestrators|
      invariant forall j :: 0 <= j < k ==> groups[j] == Board(orchestrators, sessions, j)
      invariant forall j :: k <= j < |groups| ==> groups[j] == Placed(orchestrators, sessions)[j]
    {
      PlacedMembers(orchestrators, sessions, k);
      groups := groups[k := groups[k].(members := StableSort(BoardKey(orchestrators[k].id), groups[k].members))];
    }
    assert groups == Boards(orchestrators, sessions)[..|orchestrators|];
    if ungrouped != [] {
      groups := groups + [Group(None, ungrouped)];
    }
  }

  /** The board, group by group. */
  function Boards(orchestrators: seq<Orchestrator>, sessions: seq<Session>): (groups: seq<Group>)
    ensures |groups| == |orchestrators| + if Members(orchestrators, None, sessions) == [] then 0 else 1
  {
    var ungrouped := Members(orchestrators, None, sessions);
    seq(|orchestrators|, k requires 0 <= k < |orchestrators| => Board(orchestrators, sessions, k))
    + if ungrouped == [] then [] else [Group(None, ungrouped)]
  }

  /** The groups hold exactly the sessions. */
  lemma GroupingConserves(orchestrators: seq<Orchestrator>, sessions: seq<Session>)
    ensures Content(Boards(orchestrators, sessions)) == multiset(sessions)
  {
    var groups := Boards(orchestrators, sessions);
    var owned := groups[..|orchestrators|];
    var ungrouped := Members(orchestrators, None, sessions);
    forall k | 0 <= k < |owned|
      ensures multiset(owned[k].members) == multiset(Placed(orchestrators, sessions)[k].members)
    {
      PlacedMembers(orchestrators, sessions, k);
      StableSortElements(BoardKey(orchestrators[k].id), Members(orchestrators, Some(k), sessions));
    }
    SameContent(owned, Placed(orchestrators, sessions));
    PlacedConserves(orchestrators, sessions);
    if ungrouped == [] {
      assert groups == owned;
    } else {
      assert groups == owned + [Group(None, ungrouped)];
      ContentSnoc(owned, Group(None, ungrouped));
    }
  }

  /** Groups follow the orchestrators; at most one more group comes last, for the sessions that no orchestrator matches,
      and never an empty one. */
  lemma GroupsFollowOrchestrators(orchestrators: seq<Orchestrator>, sessions: seq<Session>, k: nat)
    requires k < |Boards(orchestrators, sessions)|
    ensures var g := Boards(orchestrators, sessions)[k];
            if k < |orchestrators| then g.owner == Some(orchestrators[k]) && g == Board(orchestrators, sessions, k)
            else k == |orchestrators| && k + 1 == |Boards(orchestrators, sessions)|
                 && g.owner == None && g.members != []
                 && forall s :: s in g.members <==> s in sessions && forall o :: o in orchestrators ==>
                   !BelongsTo(s, o.id)
  {
    if k >= |orchestrators| {
      forall s ensures s in Boards(orchestrators, sessions)[k].members
                       <==> s in sessions && forall o :: o in orchestrators ==> !BelongsTo(s, o.id)
      {
        MembersMatch(orchestrators, None, sessions, s);
      }
    }
  }

  // ---------------------------------------------------------------- what the board shows

  lemma {:induction false} MembersMatch(orchestrators: seq<Orchestrator>, k: Option<nat>, sessions: seq<Session>,
                                        s: Session)
    ensures s in Members(orchestrators, k, sessions) <==> s in sessions && FirstMatch(orchestrators, OwnerOf(s)) == k
    decreases |sessions|
  {
    if sessions != [] {
      MembersMatch(orchestrators, k, sessions[..|sessions| - 1], s);
      assert sessions == sessions[..|sessions| - 1] + [sessions[|sessions| - 1]];
    }
  }

  lemma SameElements<T>(xs: seq<T>, ys: seq<T>, x: T)
    requires multiset(xs) == multiset(ys)
    ensures x in xs <==> x in ys
  {
    assert x in xs <==> x in multiset(xs);
    assert x in ys <==> x in multiset(ys);
  }

  /** A session is on exactly the board of the first orchestrator that matches its owner. */
  lemma OnTheFirstMatchingBoard(orchestrators: seq<Orchestrator>, sessions: seq<Session>, k: nat, s: Session)
    requires k < |orchestrators|
    ensures s in Board(orchestrators, sessions, k).members <==>
            s in sessions && BelongsTo(s, orchestrators[k].id) && forall j :: 0 <= j < k ==>
              !BelongsTo(s, orchestrators[j].id)
  {
    var members := Members(orchestrators, Some(k), sessions);
    StableSortElements(BoardKey(orchestrators[k].id), members);
    SameElements(members, Board(orchestrators, sessions, k).members, s);
    MembersMatch(orchestrators, Some(k), sessions, s);
  }

  /** An orchestrator's own row leads its board; the rest follow by start time, ties in arrival order. */
  lemma OwnRowFirst(orchestrators: seq<Orchestrator>, sessions: seq<Session>, k: nat)
    requires k < |orchestrators|
    ensures var members := Board(orchestrators, sessions, k).members;
            var owner := orchestrators[k].id;
            ((exists s :: s in members && s.id == owner) ==> members[0].id == owner)
            && (forall i, j :: 0 <= i < j < |members| && (members[i].id == owner <==> members[j].id == owner)
                  ==> members[i].startedAt <= members[j].startedAt)
            && (forall i, j :: 0 <= i < j < |members| && members[j].id == owner ==> members[i].id == owner)
            && var (key, arrived) := (BoardKey(owner), Members(orchestrators, Some(k), sessions));
               forall t :: WithKey(key, t, members) == WithKey(key, t, arrived)
  {
    var arrived := Members(orchestrators, Some(k), sessions);
    var owner := orchestrators[k].id;
    var key := BoardKey(owner);
    var members := Board(orchestrators, sessions, k).members;
    StableSortSorted(key, arrived);
    assert forall i, j :: 0 <= i < j < |members| ==> KeyLe(key(members[i]), key(members[j]));
    forall t ensures WithKey(key, t, members) == WithKey(key, t, arrived) {
      StableSortStable(key, arrived, t);
    }
  }

  /** `xs` is what is left of `ys` after leaving some out. */
  predicate Subsequence<T(==)>(xs: seq<T>, ys: seq<T>) {
    xs == [] || (ys != [] && (Subsequence(xs, ys[..|ys| - 1])
                              || (xs[|xs| - 1] == ys[|ys| - 1] && Subsequence(xs[..|xs| - 1], ys[..|ys| - 1]))))
  }

  /** The sessions nobody owns stay in arrival order. */
  lemma {:induction false} MembersKeepArrivalOrder(orchestrators: seq<Orchestrator>, k: Option<nat>,
                                                   sessions: seq<Session>)
    ensures Subsequence(Members(orchestrators, k, sessions), sessions)
    decreases |sessions|
  {
    if sessions != [] {
      MembersKeepArrivalOrder(orchestrators, k, sessions[..|sessions| - 1]);
      var members := Members(orchestrators, k, sessions);
      var before := Members(orchestrators, k, sessions[..|sessions| - 1]);
      assert members != before ==> members[..|members| - 1] == before;
    }
  }
}
