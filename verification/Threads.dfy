/** Review threads: re-emitted comments never double, and a thread does not depend on the order they came in. */
module Threads {
  import opened NinoxTypes
  import opened Sorting
  import opened AppModel

  predicate DistinctComments(thread: seq<Comment>) {
    forall i, j :: 0 <= i < j < |thread| ==> thread[i].id != thread[j].id
  }

  predicate InOrder(thread: seq<Comment>) {
    forall i, j :: 0 <= i < j < |thread| ==> thread[i].createdAt <= thread[j].createdAt
  }

  lemma SortedIsInOrder(thread: seq<Comment>)
    ensures SortedBy(CommentKey, thread) <==> InOrder(thread)
  {
    forall i, j | 0 <= i < j < |thread|
      ensures KeyLe(CommentKey(thread[i]), CommentKey(thread[j])) <==> thread[i].createdAt <= thread[j].createdAt
    {
    }
  }

  function CommentSet(thread: seq<Comment>): set<Comment> {
    set c | c in thread
  }

  /** An id names one comment, and no two comments were made at the same instant. */
  predicate Coherent(comments: set<Comment>) {
    && (forall a, b :: a in comments && b in comments && a.id == b.id ==> a == b)
    && (forall a, b :: a in comments && b in comments && a.createdAt == b.createdAt ==> a == b)
  }

  function AddComments(thread: seq<Comment>, cs: seq<Comment>): seq<Comment>
    decreases |cs|
  {
    if cs == [] then thread else AddComments(AddComment(thread, cs[0]), cs[1..])
  }

  lemma SameElements(xs: seq<Comment>, ys: seq<Comment>)
    requires multiset(xs) == multiset(ys)
    ensures CommentSet(xs) == CommentSet(ys) && |xs| == |ys|
    ensures DistinctComments(xs) ==> DistinctComments(ys)
  {
    forall c ensures c in xs <==> c in ys {
      assert c in xs <==> c in multiset(xs);
      assert c in ys <==> c in multiset(ys);
    }
    assert |multiset(xs)| == |multiset(ys)|;
    if DistinctComments(xs) {
      DistinctOnce(xs);
      forall i, j | 0 <= i < j < |ys| ensures ys[i].id != ys[j].id {
        assert ys[i] in xs && ys[j] in xs;
        if ys[i] == ys[j] {
          TwiceIn(ys, i, j);
          assert false;
        }
      }
    }
  }

  lemma {:induction false} DistinctOnce(xs: seq<Comment>)
    requires DistinctComments(xs)
    ensures forall c :: c in xs ==> multiset(xs)[c] == 1
  {
    if xs != [] {
      assert xs == [xs[0]] + xs[1..];
      DistinctOnce(xs[1..]);
      forall c | c in xs ensures multiset(xs)[c] == 1 {
        assert xs[0] !in xs[1..];
      }
    }
  }

  lemma TwiceIn(ys: seq<Comment>, i: int, j: int)
    requires 0 <= i < j < |ys| && ys[i] == ys[j]
    ensures multiset(ys)[ys[i]] >= 2
  {
    assert ys == ys[..j] + ys[j..];
    assert ys[i] in ys[..j] && ys[j] in ys[j..];
  }

  /** After every insertion the thread is sorted by creation time; its ids stay distinct; and a comment whose id is
      known changes nothing. */
  lemma InsertingKeepsThread(thread: seq<Comment>, c: Comment)
    requires DistinctComments(thread)
    ensures DistinctComments(AddComment(thread, c)) && HasComment(AddComment(thread, c), c.id)
    ensures HasComment(thread, c.id) ==> AddComment(thread, c) == thread
    ensures !HasComment(thread, c.id) ==>
      InOrder(AddComment(thread, c)) && CommentSet(AddComment(thread, c)) == CommentSet(thread) + {c}
  {
    if !HasComment(thread, c.id) {
      var pushed := thread + [c];
      assert DistinctComments(pushed);
      StableSortSorted(CommentKey, pushed);
      SortedIsInOrder(StableSort(CommentKey, pushed));
      StableSortElements(CommentKey, pushed);
      SameElements(pushed, StableSort(CommentKey, pushed));
      assert CommentSet(pushed) == CommentSet(thread) + {c};
      assert c in CommentSet(StableSort(CommentKey, pushed));
    }
  }

  lemma FirstCommentJoins(thread: seq<Comment>, cs: seq<Comment>)
    requires cs != [] && DistinctComments(thread) && Coherent(CommentSet(thread) + CommentSet(cs))
    ensures CommentSet(cs) == {cs[0]} + CommentSet(cs[1..])
    ensures CommentSet(AddComment(thread, cs[0])) == CommentSet(thread) + {cs[0]}
    ensures AddComment(thread, cs[0]) == thread || InOrder(AddComment(thread, cs[0]))
    ensures cs[0] in CommentSet(thread) ==> AddComment(thread, cs[0]) == thread
  {
    InsertingKeepsThread(thread, cs[0]);
    if HasComment(thread, cs[0].id) {
      var i :| 0 <= i < |thread| && thread[i].id == cs[0].id;
      assert thread[i] in CommentSet(thread) && cs[0] in CommentSet(cs);
    }
  }

  /** Any number of comments, in any order and repeated at will, leave either the thread as it was, when all were
      known, or a sorted one that holds the old comments and the new. */
  lemma {:induction false} ThreadAfterComments(thread: seq<Comment>, cs: seq<Comment>)
    requires DistinctComments(thread) && Coherent(CommentSet(thread) + CommentSet(cs))
    ensures DistinctComments(AddComments(thread, cs))
    ensures CommentSet(AddComments(thread, cs)) == CommentSet(thread) + CommentSet(cs)
    ensures if CommentSet(cs) <= CommentSet(thread) then AddComments(thread, cs) == thread
            else InOrder(AddComments(thread, cs))
    decreases |cs|
  {
    if cs != [] {
      var c, added := cs[0], AddComment(thread, cs[0]);
      InsertingKeepsThread(thread, c);
      FirstCommentJoins(thread, cs);
      assert CommentSet(added) + CommentSet(cs[1..]) == CommentSet(thread) + CommentSet(cs);
      ThreadAfterComments(added, cs[1..]);
    }
  }

  lemma {:induction false} SameSetSameMultiset(xs: seq<Comment>, ys: seq<Comment>)
    requires DistinctComments(xs) && DistinctComments(ys) && CommentSet(xs) == CommentSet(ys)
    ensures multiset(xs) == multiset(ys)
  {
    DistinctOnce(xs);
    DistinctOnce(ys);
    forall c ensures multiset(xs)[c] == multiset(ys)[c] {
      assert c in xs <==> c in CommentSet(xs);
      assert c in ys <==> c in CommentSet(ys);
    }
  }

  /** The thread depends only on which comments arrived. */
  lemma ArrivalOrderDoesNotMatter(thread: seq<Comment>, xs: seq<Comment>, ys: seq<Comment>)
    requires DistinctComments(thread) && CommentSet(xs) == CommentSet(ys)
    requires Coherent(CommentSet(thread) + CommentSet(xs))
    ensures AddComments(thread, xs) == AddComments(thread, ys)
  {
    ThreadAfterComments(thread, xs);
    ThreadAfterComments(thread, ys);
    var a, b := AddComments(thread, xs), AddComments(thread, ys);
    if !(CommentSet(xs) <= CommentSet(thread)) {
      SameSetSameMultiset(a, b);
      forall i, j | 0 <= i < j < |a| ensures CommentKey(a[i]) != CommentKey(a[j]) {
        assert a[i] in CommentSet(a) && a[j] in CommentSet(a);
      }
      SortedIsInOrder(a);
      SortedIsInOrder(b);
      StrictSortUnique(CommentKey, a, b);
    }
  }

  // ---------------------------------------------------------------- in the running app

  /** Every thread has distinct ids, is sorted by creation time, and has an editor buffer for each comment. */
  predicate TidyThreads(threads: map<PrId, seq<Comment>>, editors: map<int, string>) {
    forall prId :: prId in threads ==> TidyThread(threads[prId], editors)
  }

  predicate TidyThread(thread: seq<Comment>, editors: map<int, string>) {
    DistinctComments(thread) && InOrder(thread) && forall i :: 0 <= i < |thread| ==>
      thread[i].id in editors
  }

  lemma {:induction false} LoadedFromStore(db: seq<Comment>, prId: PrId, c: Comment)
    requires prId in LoadedThreads(db) && c in LoadedThreads(db)[prId]
    ensures c in db
    decreases |db|
  {
    var front, last := db[..|db| - 1], db[|db| - 1];
    if c != last {
      LoadedFromStore(front, prId, c);
    }
  }

  lemma LoadingKeepsThread(thread: seq<Comment>, editors: map<int, string>, c: Comment)
    requires TidyThread(thread, editors)
    requires forall x :: x in thread ==> x.id != c.id && x.createdAt <= c.createdAt
    ensures TidyThread(thread + [c], editors[c.id := c.body])
  {
    assert forall i :: 0 <= i < |thread| ==> thread[i] in thread;
  }

  /** The store lists comments with distinct ids in order of creation, so an app starts with tidy threads. */
  lemma {:induction false} StartupThreadsAreTidy(db: seq<Comment>)
    requires DistinctComments(db) && InOrder(db)
    ensures TidyThreads(LoadedThreads(db), LoadedEditors(db))
    decreases |db|
  {
    if db != [] {
      var front, c := db[..|db| - 1], db[|db| - 1];
      StartupThreadsAreTidy(front);
      var threads, editors := LoadedThreads(front), LoadedEditors(front);
      forall prId | prId in LoadedThreads(db) ensures TidyThread(LoadedThreads(db)[prId], LoadedEditors(db)) {
        if prId == c.prId {
          var thread := if prId in threads then threads[prId] else [];
          forall x | x in thread ensures x.id != c.id && x.createdAt <= c.createdAt {
            LoadedFromStore(front, prId, x);
            NewestComesLast(db, x);
          }
          LoadingKeepsThread(thread, editors, c);
        } else {
          assert TidyThread(threads[prId], editors);
        }
      }
    }
  }

  lemma NewestComesLast(db: seq<Comment>, x: Comment)
    requires DistinctComments(db) && InOrder(db) && db != [] && x in db[..|db| - 1]
    ensures x.id != db[|db| - 1].id && x.createdAt <= db[|db| - 1].createdAt
  {
    var i :| 0 <= i < |db| - 1 && db[i] == x;
  }

  lemma CommentKeepsThreadsTidy(c: Core, prId: PrId, comment: Comment)
    requires TidyThreads(c.reviewThreads, c.commentEditors)
    ensures var after := HandleComment(c, prId, comment);
            TidyThreads(after.reviewThreads, after.commentEditors)
  {
    var thread := if prId in c.reviewThreads then c.reviewThreads[prId] else [];
    InsertingKeepsThread(thread, comment);
    var added := AddComment(thread, comment);
    var after := HandleComment(c, prId, comment);
    forall i | 0 <= i < |added| ensures added[i].id in after.commentEditors {
      assert added[i] in CommentSet(added);
    }
    forall p | p in after.reviewThreads ensures TidyThread(after.reviewThreads[p], after.commentEditors) {
      assert p != prId ==> TidyThread(c.reviewThreads[p], c.commentEditors);
    }
  }

  lemma OtherEventsKeepThreads(c: Core, e: Event)
    requires !e.ReviewComment?
    ensures HandleCore(c, e).reviewThreads == c.reviewThreads && HandleCore(c, e).commentEditors == c.commentEditors
  {
  }

  lemma {:induction false} EventsKeepThreadsTidy(st: AppState, es: seq<Event>)
    requires TidyThreads(st.core.reviewThreads, st.core.commentEditors)
    ensures var after := HandleEvents(st, es).core;
            TidyThreads(after.reviewThreads, after.commentEditors)
    decreases |es|
  {
    if es != [] {
      var e, next := es[0], HandleEvent(st, es[0]);
      if e.ReviewComment? {
        CommentKeepsThreadsTidy(st.core, e.prId, e.comment);
        assert next.core == HandleComment(st.core, e.prId, e.comment);
      } else {
        OtherEventsKeepThreads(st.core, e);
        assert next.core == HandleCore(st.core, e) || next.core == st.core;
      }
      EventsKeepThreadsTidy(next, es[1..]);
    }
  }

  /** From the comments loaded at startup on, along every stream of engine events every thread has distinct ids, is
      sorted, and has an editor buffer for each comment. */
  lemma ThreadsStayTidy(st: AppState, db: seq<Comment>, es: seq<Event>)
    requires DistinctComments(db) && InOrder(db)
    requires st.core.reviewThreads == LoadedThreads(db) && st.core.commentEditors == LoadedEditors(db)
    ensures var after := HandleEvents(st, es).core;
            TidyThreads(after.reviewThreads, after.commentEditors)
  {
    StartupThreadsAreTidy(db);
    EventsKeepThreadsTidy(st, es);
  }

  // ---------------------------------------------------------------- what a thread holds

  /** The comments that a stream brings for a PR. */
  function Arrived(es: seq<Event>, prId: PrId): seq<Comment> {
    if es == [] then []
    else Arrived(es[..|es| - 1], prId)
         + if es[|es| - 1].ReviewComment? && es[|es| - 1].prId == prId then [es[|es| - 1].comment] else []
  }

  function Thread(st: AppState, prId: PrId): seq<Comment> {
    if prId in st.core.reviewThreads then st.core.reviewThreads[prId] else []
  }

  lemma {:induction false} AddCommentsConcat(thread: seq<Comment>, xs: seq<Comment>, ys: seq<Comment>)
    ensures AddComments(thread, xs + ys) == AddComments(AddComments(thread, xs), ys)
    decreases |xs|
  {
    if xs == [] {
      assert xs + ys == ys;
    } else {
      assert (xs + ys)[1..] == xs[1..] + ys;
      AddCommentsConcat(AddComment(thread, xs[0]), xs[1..], ys);
    }
  }

  /** One event adds its comment to its own PR's thread, and a buffer with its text if it is new there. */
  lemma ThreadAfterEvent(st: AppState, e: Event, prId: PrId)
    ensures var (mine, after) := (e.ReviewComment? && e.prId == prId, HandleEvent(st, e));
            Thread(after, prId) == AddComments(Thread(st, prId), if mine then [e.comment] else [])
            && (after.core.commentEditors
                == if e.ReviewComment? && forall c :: c in Thread(st, e.prId) ==> c.id != e.comment.id
                   then st.core.commentEditors[e.comment.id := e.comment.body] else st.core.commentEditors)
  {
    if e.ReviewComment? {
      assert HandleEvent(st, e).core == HandleComment(st.core, e.prId, e.comment);
      assert [e.comment][1..] == [];
      assert HasComment(Thread(st, e.prId), e.comment.id)
        <==> exists c :: c in Thread(st, e.prId) && c.id == e.comment.id;
    } else {
      OtherEventsKeepThreads(st.core, e);
    }
  }

  /** After any stream of events a PR's thread is its old one with everything added that came for it. */
  lemma {:induction false} ThreadsCollectTheirComments(st: AppState, es: seq<Event>, prId: PrId)
    ensures Thread(HandleEvents(st, es), prId) == AddComments(Thread(st, prId), Arrived(es, prId))
    decreases |es|
  {
    if es != [] {
      var (front, e) := (es[..|es| - 1], es[|es| - 1]);
      ThreadsCollectTheirComments(st, front, prId);
      assert es == front + [e] && [e][1..] == [];
      HandleEventsConcat(st, front, [e]);
      ThreadAfterEvent(HandleEvents(st, front), e, prId);
      AddCommentsConcat(Thread(st, prId), Arrived(front, prId),
                        if e.ReviewComment? && e.prId == prId then [e.comment] else []);
    }
  }

  /** So it holds exactly the comments it held and those that came for it, each once, in order of creation. */
  lemma ThreadsHoldExactly(st: AppState, es: seq<Event>, prId: PrId)
    requires DistinctComments(Thread(st, prId)) && InOrder(Thread(st, prId))
    requires Coherent(CommentSet(Thread(st, prId)) + CommentSet(Arrived(es, prId)))
    ensures var thread := Thread(HandleEvents(st, es), prId);
            DistinctComments(thread) && InOrder(thread)
            && CommentSet(thread) == CommentSet(Thread(st, prId)) + CommentSet(Arrived(es, prId))
  {
    ThreadsCollectTheirComments(st, es, prId);
    ThreadAfterComments(Thread(st, prId), Arrived(es, prId));
  }

  /** At startup a PR's thread is the stored comments about it, and every stored comment has its text in a buffer. */
  lemma {:induction false} StartupLoadsExactly(db: seq<Comment>, prId: PrId, c: Comment)
    requires DistinctComments(db)
    ensures c in (if prId in LoadedThreads(db) then LoadedThreads(db)[prId] else []) <==> c in db && c.prId == prId
    ensures c in db ==> c.id in LoadedEditors(db) && LoadedEditors(db)[c.id] == c.body
    decreases |db|
  {
    if db != [] {
      var (front, last) := (db[..|db| - 1], db[|db| - 1]);
      assert db == front + [last];
      StartupLoadsExactly(front, prId, c);
    }
  }
}
