/** Merging the store into the app's memory. */
module Polling {
  import opened NinoxTypes
  import opened AppModel

  /** Session ids are the store's primary key. */
  predicate DistinctIds(db: seq<Session>) {
    forall i, j :: 0 <= i < j < |db| ==> db[i].id != db[j].id
  }

  function Row(db: seq<Session>, sid: SessionId): Session
    requires InStore(db, sid)
  {
    if db[0].id == sid then db[0]
    else
      assert InStore(db[1..], sid) by {
        var i :| 0 <= i < |db| && db[i].id == sid;
        assert db[1..][i - 1].id == sid;
      }
      Row(db[1..], sid)
  }

  lemma TailHas(db: seq<Session>, sid: SessionId)
    requires db != []
    ensures InStore(db, sid) <==> db[0].id == sid || InStore(db[1..], sid)
  {
    if InStore(db, sid) && db[0].id != sid {
      var i :| 0 <= i < |db| && db[i].id == sid;
      assert db[1..][i - 1].id == sid;
    }
    if InStore(db[1..], sid) {
      var i :| 0 <= i < |db[1..]| && db[1..][i].id == sid;
      assert db[i + 1].id == sid;
    }
  }

  lemma {:induction false} AdoptedKeys(sessions: map<SessionId, Session>, db: seq<Session>, sid: SessionId)
    ensures sid in AdoptSessions(sessions, db) <==> sid in sessions || InStore(db, sid)
    decreases |db|
  {
    if db != [] {
      AdoptedKeys(AdoptSession(sessions, db[0]), db[1..], sid);
      TailHas(db, sid);
    }
  }

  /** A row is adopted where the session is new, or where it is finished in another way than memory knows. */
  lemma {:induction false} AdoptedRow(sessions: map<SessionId, Session>, db: seq<Session>, sid: SessionId)
    requires DistinctIds(db) && (sid in sessions || InStore(db, sid))
    ensures sid in AdoptSessions(sessions, db)
    ensures AdoptSessions(sessions, db)[sid] ==
            if InStore(db, sid) && (sid !in sessions || AdoptsTerminalStatus(sessions[sid].status, Row(db, sid).status))
            then Row(db, sid) else sessions[sid]
    decreases |db|
  {
    if db != [] {
      var s := db[0];
      TailHas(db, sid);
      assert forall i :: 0 <= i < |db[1..]| ==> db[1..][i] == db[i + 1];
      assert !InStore(db[1..], s.id);
      AdoptedRow(AdoptSession(sessions, s), db[1..], sid);
    }
  }

  lemma {:induction false} OrchestratorsKept(orchs: seq<Orchestrator>, db: seq<Orchestrator>, id: SessionId)
    requires KnowsOrchestrator(orchs, id)
    ensures KnowsOrchestrator(AddOrchestrators(orchs, db), id)
    decreases |db|
  {
    if db != [] {
      var i :| 0 <= i < |orchs| && orchs[i].id == id;
      assert AddOrchestrator(orchs, db[0])[i].id == id;
      OrchestratorsKept(AddOrchestrator(orchs, db[0]), db[1..], id);
    }
  }

  lemma {:induction false} OrchestratorsAdded(orchs: seq<Orchestrator>, db: seq<Orchestrator>, j: nat)
    requires j < |db|
    ensures KnowsOrchestrator(AddOrchestrators(orchs, db), db[j].id)
    decreases |db|
  {
    var added := AddOrchestrator(orchs, db[0]);
    if j == 0 {
      assert KnowsOrchestrator(added, db[0].id) by {
        if !KnowsOrchestrator(orchs, db[0].id) {
          assert added[|orchs|].id == db[0].id;
        }
      }
      OrchestratorsKept(added, db[1..], db[0].id);
    } else {
      OrchestratorsAdded(added, db[1..], j - 1);
    }
  }

  lemma {:induction false} KnownOrchestratorsAddNothing(orchs: seq<Orchestrator>, db: seq<Orchestrator>)
    requires forall j :: 0 <= j < |db| ==> KnowsOrchestrator(orchs, db[j].id)
    ensures AddOrchestrators(orchs, db) == orchs
    decreases |db|
  {
    if db != [] {
      assert AddOrchestrator(orchs, db[0]) == orchs;
      KnownOrchestratorsAddNothing(orchs, db[1..]);
    }
  }

  /** After a poll memory holds every stored session, and nothing but stored sessions and orchestrators. */
  lemma PollMirrorsStore(c: Core, db: seq<Session>, dbOrchs: seq<Orchestrator>, sid: SessionId)
    ensures var p := Poll(c, db, dbOrchs);
            && (InStore(db, sid) ==> sid in p.sessions)
            && (sid in p.sessions ==> InStore(db, sid) || KnowsOrchestrator(p.orchestrators, sid))
            && (sid in c.sessions && KnowsOrchestrator(c.orchestrators, sid) ==> sid in p.sessions)
  {
    var gone := Gone(c, db, dbOrchs);
    AdoptedKeys(c.sessions - gone, db, sid);
    if KnowsOrchestrator(c.orchestrators, sid) {
      OrchestratorsKept(c.orchestrators, dbOrchs, sid);
    }
  }

  /** A tracked session takes the stored status exactly when that is terminal, so a finished session never comes
      back to life; a session that is new to memory is taken over whole. */
  lemma PollAdoptsTerminalStatus(c: Core, db: seq<Session>, dbOrchs: seq<Orchestrator>, sid: SessionId)
    requires DistinctIds(db)
    ensures var p := Poll(c, db, dbOrchs);
            && (sid in c.sessions && InStore(db, sid) ==>
                  sid in p.sessions && p.sessions[sid].status ==
                    if Row(db, sid).status.IsTerminal() then Row(db, sid).status else c.sessions[sid].status)
            && (sid !in c.sessions && InStore(db, sid) ==> sid in p.sessions && p.sessions[sid] == Row(db, sid))
            && (sid in c.sessions && sid in p.sessions && c.sessions[sid].status.IsTerminal() ==>
                  p.sessions[sid].status.IsTerminal())
  {
    var kept := c.sessions - Gone(c, db, dbOrchs);
    if sid in kept || InStore(db, sid) {
      AdoptedRow(kept, db, sid);
    } else {
      AdoptedKeys(kept, db, sid);
    }
  }

  lemma {:induction false} AdoptNothing(sessions: map<SessionId, Session>, db: seq<Session>)
    requires forall i :: 0 <= i < |db| ==>
      db[i].id in sessions && !AdoptsTerminalStatus(sessions[db[i].id].status, db[i].status)
    ensures AdoptSessions(sessions, db) == sessions
    decreases |db|
  {
    if db != [] {
      assert AdoptSession(sessions, db[0]) == sessions;
      AdoptNothing(sessions, db[1..]);
    }
  }

  lemma {:induction false} RowAt(db: seq<Session>, i: nat)
    requires DistinctIds(db) && i < |db|
    ensures InStore(db, db[i].id) && Row(db, db[i].id) == db[i]
    decreases |db|
  {
    if i > 0 {
      RowAt(db[1..], i - 1);
    }
  }

  lemma RefreshTwice(c: Core)
    ensures RefreshDiff(RefreshDiff(c)) == RefreshDiff(c)
  {
  }

  /** Polling an unchanged store again changes nothing, emulators included. */
  lemma PollTwiceIsPollOnce(st: AppState, db: seq<Session>, dbOrchs: seq<Orchestrator>)
    requires DistinctIds(db)
    ensures var m := PollSessions(db, dbOrchs); Apply(Apply(st, m), m) == Apply(st, m)
  {
    var c := st.core;
    var p := Poll(c, db, dbOrchs);
    var kept := c.sessions - Gone(c, db, dbOrchs);
    forall j | 0 <= j < |dbOrchs| ensures KnowsOrchestrator(p.orchestrators, dbOrchs[j].id) {
      OrchestratorsAdded(c.orchestrators, dbOrchs, j);
    }
    KnownOrchestratorsAddNothing(p.orchestrators, dbOrchs);
    forall sid ensures sid !in Gone(p, db, dbOrchs) {
      PollMirrorsStore(c, db, dbOrchs, sid);
    }
    assert Gone(p, db, dbOrchs) == {};
    forall i | 0 <= i < |db|
      ensures db[i].id in p.sessions && !AdoptsTerminalStatus(p.sessions[db[i].id].status, db[i].status)
    {
      RowAt(db, i);
      AdoptedRow(kept, db, db[i].id);
    }
    MinusNothing(p.sessions);
    MinusNothing(p.diffs);
    MinusNothing(Apply(st, PollSessions(db, dbOrchs)).terminals);
    AdoptNothing(p.sessions, db);
    SecondPoll(p, db, dbOrchs);
    RefreshTwice(c.(orchestrators := p.orchestrators, sessions := p.sessions, diffs := c.diffs - Gone(c, db, dbOrchs)));
  }

  lemma SecondPoll(p: Core, db: seq<Session>, dbOrchs: seq<Orchestrator>)
    requires Gone(p, db, dbOrchs) == {} && AddOrchestrators(p.orchestrators, dbOrchs) == p.orchestrators
    requires AdoptSessions(p.sessions - {}, db) == p.sessions && p.diffs - {} == p.diffs
    ensures Poll(p, db, dbOrchs) == RefreshDiff(p)
  {
  }
}
