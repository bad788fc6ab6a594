/** What every run of uninterrupted forum calls keeps. */
module ForumInvariants {
  import opened Options
  import opened Forum

  /** A call with the time at which it runs. */
  datatype Timed = Timed(op: Op, now: int)

  ghost function Exec(t: Tables, calls: seq<Timed>): Tables
    decreases |calls|
  {
    if calls == [] then t else Exec(Do(t, calls[0].op, calls[0].now).0, calls[1..])
  }

  /** The clock does not run backwards and drawn keys are unused. */
  ghost predicate Plausible(t: Tables, now: int, calls: seq<Timed>)
    decreases |calls|
  {
    calls == []
    || (now <= calls[0].now && Fresh(t, calls[0].op)
        && Plausible(Do(t, calls[0].op, calls[0].now).0, calls[0].now, calls[1..]))
  }

  function EndTime(now: int, calls: seq<Timed>): int
    decreases |calls|
  {
    if calls == [] then now else EndTime(calls[0].now, calls[1..])
  }

  function Empty(): Tables {
    Tables(map[], map[], map[], map[])
  }

  // ---------------------------------------------------------------- invariants

  ghost predicate References(t: Tables) {
    && (forall g :: g in t.groups && t.groups[g].parent.Some? ==> t.groups[g].parent.value in t.groups)
    && (forall th :: th in t.threads ==> t.threads[th].group in t.groups)
    && (forall p :: p in t.posts ==> t.posts[p].thread in t.threads)
    && (forall a :: a in t.attachments && t.attachments[a].post.Some? ==> t.attachments[a].post.value in t.posts)
  }

  /** The cached counter and timestamp agree with the posts table. */
  ghost predicate StatsAgree(t: Tables, th: Id)
    requires th in t.threads
  {
    && t.threads[th].postCount == |PostsIn(t.posts, th)|
    && IsLatest(t.posts, PostsIn(t.posts, th), t.threads[th].lastPostAt)
  }

  ghost predicate Stats(t: Tables) {
    forall th :: th in t.threads ==> StatsAgree(t, th)
  }

  ghost predicate Past(t: Tables, now: int) {
    forall p :: p in t.posts ==> t.posts[p].createdAt <= now
  }

  ghost predicate EditedByAuthor(t: Tables) {
    forall p :: p in t.posts ==> t.posts[p].editedBy == None || t.posts[p].editedBy == Some(t.posts[p].author)
  }

  ghost predicate Inv(t: Tables, now: int) {
    References(t) && Stats(t) && Past(t, now) && EditedByAuthor(t)
  }

  // -------------------------------------------------------------- preservation

  lemma ReferencesOfGroups(t: Tables, op: Op, now: int)
    requires References(t) && Fresh(t, op) && (op.CreateGroup? || op.UpdateGroup? || op.DeleteGroup?)
    ensures References(Do(t, op, now).0)
  {
  }

  lemma ReferencesOfDeletions(t: Tables, op: Op, now: int)
    requires References(t) && (op.DeleteThread? || op.DeletePost? || op.Detach?)
    ensures References(Do(t, op, now).0)
  {
  }

  lemma ReferencesStep(t: Tables, op: Op, now: int)
    requires References(t) && Fresh(t, op)
    ensures References(Do(t, op, now).0)
  {
    if op.CreateGroup? || op.UpdateGroup? || op.DeleteGroup? {
      ReferencesOfGroups(t, op, now);
    } else if op.DeleteThread? || op.DeletePost? || op.Detach? {
      ReferencesOfDeletions(t, op, now);
    }
  }

  lemma PastStep(t: Tables, op: Op, now: int)
    requires Past(t, now) && EditedByAuthor(t)
    ensures Past(Do(t, op, now).0, now) && EditedByAuthor(Do(t, op, now).0)
  {
  }

  /** Whatever leaves the posts and the statistics of th alone. */
  lemma StatsFrame(t: Tables, u: Tables, th: Id)
    requires th in t.threads && th in u.threads && StatsAgree(t, th)
    requires u.threads[th].postCount == t.threads[th].postCount && u.threads[th].lastPostAt == t.threads[th].lastPostAt
    requires PostsIn(u.posts, th) == PostsIn(t.posts, th)
    requires forall p :: p in PostsIn(t.posts, th) ==> u.posts[p].createdAt == t.posts[p].createdAt
    ensures StatsAgree(u, th)
  {
    var ids := PostsIn(t.posts, th);
    var m := t.threads[th].lastPostAt;
    if m.Some? {
      var p :| p in ids && p in t.posts && t.posts[p].createdAt == m.value;
      assert p in u.posts && u.posts[p].createdAt == m.value;
    }
  }

  lemma NewestIsLatest(posts: map<Id, Post>, ids: set<Id>, p: Id)
    requires p in ids && p in posts
    requires forall q | q in ids && q in posts :: posts[q].createdAt <= posts[p].createdAt
    ensures IsLatest(posts, ids, Some(posts[p].createdAt))
  {
  }

  /** A new post, the latest of its thread, counted once. */
  lemma StatsGrow(t: Tables, u: Tables, th: Id, p: Id, now: int)
    requires Past(t, now) && p !in t.posts && u.posts.Keys == t.posts.Keys + {p}
    requires forall q :: q in t.posts ==> u.posts[q] == t.posts[q]
    requires u.posts[p].thread == th && u.posts[p].createdAt == now
    requires th in u.threads && u.threads[th].postCount == |PostsIn(t.posts, th)| + 1
    requires u.threads[th].lastPostAt == Some(now)
    ensures StatsAgree(u, th)
  {
    var ids := PostsIn(u.posts, th);
    assert ids == PostsIn(t.posts, th) + {p};
    forall q | q in ids ensures u.posts[q].createdAt <= now {
      assert q != p ==> q in t.posts && u.posts[q] == t.posts[q];
    }
    NewestIsLatest(u.posts, ids, p);
  }

  /** A new post changes no other thread's statistics. */
  lemma StatsElsewhere(t: Tables, u: Tables, th: Id, p: Id, other: Id)
    requires other in t.threads && other in u.threads && other != th && StatsAgree(t, other)
    requires p !in t.posts && u.posts.Keys == t.posts.Keys + {p} && u.posts[p].thread == th
    requires forall q :: q in t.posts ==> u.posts[q] == t.posts[q]
    requires u.threads[other] == t.threads[other]
    ensures StatsAgree(u, other)
  {
    assert PostsIn(u.posts, other) == PostsIn(t.posts, other);
    StatsFrame(t, u, other);
  }

  lemma StatsCreateThread(t: Tables, th: Id, g: Id, p: Id, caller: Id, title: string, body: string, now: int)
    requires References(t) && Stats(t) && Past(t, now) && th !in t.threads && p !in t.posts
    ensures Stats(DoCreateThread(t, th, g, p, caller, title, body, now).0)
  {
    var u := DoCreateThread(t, th, g, p, caller, title, body, now).0;
    if u != t {
      assert PostsIn(t.posts, th) == {};
      StatsGrow(t, u, th, p, now);
      forall other | other in t.threads
        ensures StatsAgree(u, other)
      {
        StatsElsewhere(t, u, th, p, other);
      }
    }
  }

  lemma StatsCreatePost(t: Tables, p: Id, th: Id, caller: Id, body: string, now: int)
    requires Stats(t) && Past(t, now) && p !in t.posts
    ensures Stats(DoCreatePost(t, p, th, caller, body, now).0)
  {
    var u := DoCreatePost(t, p, th, caller, body, now).0;
    if u != t {
      assert StatsAgree(t, th);
      StatsGrow(t, u, th, p, now);
      forall other | other in t.threads && other != th
        ensures StatsAgree(u, other)
      {
        StatsElsewhere(t, u, th, p, other);
      }
    }
  }

  lemma StatsDeletePost(t: Tables, p: Id, caller: Id, roles: seq<string>)
    requires Stats(t)
    ensures Stats(DoDeletePost(t, p, caller, roles).0)
  {
    var u := DoDeletePost(t, p, caller, roles).0;
    if u != t {
      forall other | other in u.threads && other != t.posts[p].thread
        ensures StatsAgree(u, other)
      {
        StatsFrame(t, u, other);
      }
    }
  }

  lemma StatsDeleteThreads(t: Tables, u: Tables, gone: set<Id>)
    requires Stats(t) && u.threads == t.threads - gone
    requires u.posts == t.posts - (set p | p in t.posts && t.posts[p].thread in gone)
    ensures Stats(u)
  {
    forall other | other in u.threads
      ensures StatsAgree(u, other)
    {
      StatsFrame(t, u, other);
    }
  }

  /** Calls that neither insert nor delete a post. */
  predicate Quiet(op: Op) {
    !op.CreateThread? && !op.CreatePost? && !op.DeletePost? && !op.DeleteThread? && !op.DeleteGroup?
  }

  lemma QuietThreads(t: Tables, op: Op, now: int, th: Id)
    requires Quiet(op) && th in Do(t, op, now).0.threads
    ensures th in t.threads
    ensures Do(t, op, now).0.threads[th].postCount == t.threads[th].postCount
    ensures Do(t, op, now).0.threads[th].lastPostAt == t.threads[th].lastPostAt
  {
  }

  lemma QuietPosts(t: Tables, op: Op, now: int)
    requires Quiet(op)
    ensures var u := Do(t, op, now).0;
      u.posts.Keys == t.posts.Keys
      && forall p :: p in t.posts ==>
           u.posts[p].thread == t.posts[p].thread && u.posts[p].createdAt == t.posts[p].createdAt
  {
  }

  lemma StatsQuiet(t: Tables, op: Op, now: int)
    requires Stats(t) && Quiet(op)
    ensures Stats(Do(t, op, now).0)
  {
    var u := Do(t, op, now).0;
    QuietPosts(t, op, now);
    forall th | th in u.threads
      ensures StatsAgree(u, th)
    {
      QuietThreads(t, op, now, th);
      SamePostsIn(t, u, th);
      StatsFrame(t, u, th);
    }
  }

  lemma SamePostsIn(t: Tables, u: Tables, th: Id)
    requires u.posts.Keys == t.posts.Keys && forall p :: p in t.posts ==> u.posts[p].thread == t.posts[p].thread
    ensures PostsIn(u.posts, th) == PostsIn(t.posts, th)
  {
  }

  lemma StatsStep(t: Tables, op: Op, now: int)
    requires References(t) && Stats(t) && Past(t, now) && Fresh(t, op)
    ensures Stats(Do(t, op, now).0)
  {
    match op
    case CreateThread(th, g, p, caller, title, body) => StatsCreateThread(t, th, g, p, caller, title, body, now);
    case CreatePost(p, th, caller, body) => StatsCreatePost(t, p, th, caller, body, now);
    case DeletePost(p, caller, roles) => StatsDeletePost(t, p, caller, roles);
    case DeleteThread(th, _, _) =>
      if Do(t, op, now).0 != t {
        StatsDeleteThreads(t, Do(t, op, now).0, {th});
      }
    case DeleteGroup(g) =>
      if Do(t, op, now).0 != t {
        StatsDeleteThreads(t, Do(t, op, now).0, set th | th in t.threads && t.threads[th].group == g);
      }
    case _ => StatsQuiet(t, op, now);
  }

  lemma InvStep(t: Tables, before: int, op: Op, now: int)
    requires Inv(t, before) && before <= now && Fresh(t, op)
    ensures Inv(Do(t, op, now).0, now)
  {
    ReferencesStep(t, op, now);
    PastStep(t, op, now);
    StatsStep(t, op, now);
  }

  lemma {:induction false} InvExec(t: Tables, now: int, calls: seq<Timed>)
    requires Inv(t, now) && Plausible(t, now, calls)
    ensures Inv(Exec(t, calls), EndTime(now, calls))
    decreases |calls|
  {
    if calls != [] {
      InvStep(t, now, calls[0].op, calls[0].now);
      InvExec(Do(t, calls[0].op, calls[0].now).0, calls[0].now, calls[1..]);
    }
  }

  // ------------------------------------------------------------------- theorems

  /** The cached statistics of every thread agree with its posts, although
      one path increments them and another recomputes them. */
  lemma StatsAreExact(now: int, calls: seq<Timed>, th: Id)
    requires Plausible(Empty(), now, calls) && th in Exec(Empty(), calls).threads
    ensures StatsAgree(Exec(Empty(), calls), th)
  {
    InvExec(Empty(), now, calls);
  }

  lemma ReferencesHold(now: int, calls: seq<Timed>)
    requires Plausible(Empty(), now, calls)
    ensures References(Exec(Empty(), calls)) && EditedByAuthor(Exec(Empty(), calls))
  {
    InvExec(Empty(), now, calls);
  }

  /** The emptiness guard: no thread, post or attachment goes with a group, for
      all that the foreign key would cascade. */
  lemma GroupDeletionTakesNothingElse(t: Tables, g: Id, now: int)
    requires References(t)
    ensures var u := Do(t, Op.DeleteGroup(g), now).0;
      && u.threads == t.threads && u.posts == t.posts && u.attachments == t.attachments
      && (Do(t, Op.DeleteGroup(g), now).1 == Ok ==> u.groups.Keys == t.groups.Keys - {g})
  {
  }

  /** Deleting a thread removes exactly its own posts; attachments stay. */
  lemma ThreadDeletionTakesItsPosts(t: Tables, th: Id, caller: Id, roles: seq<string>, now: int)
    requires Do(t, Op.DeleteThread(th, caller, roles), now).1 == Ok
    ensures var u := Do(t, Op.DeleteThread(th, caller, roles), now).0;
      && u.threads.Keys == t.threads.Keys - {th} && (forall s :: s in u.threads ==> u.threads[s] == t.threads[s])
      && u.posts.Keys == t.posts.Keys - PostsIn(t.posts, th) && (forall p :: p in u.posts ==> u.posts[p] == t.posts[p])
      && u.attachments.Keys == t.attachments.Keys
      && (forall a :: a in t.attachments ==> u.attachments[a].owner == t.attachments[a].owner)
      && (forall a :: a in t.attachments ==>
            u.attachments[a].post == Without(t.attachments[a].post, PostsIn(t.posts, th)))
  {
  }

  function Without(post: Option<Id>, gone: set<Id>): Option<Id> {
    if post.Some? && post.value in gone then None else post
  }

  // ------------------------------------------------------------ pinned and locked

  /** The call is a moderator's or administrator's update of th. */
  predicate Moderation(op: Op, th: Id) {
    op.UpdateThread? && op.th == th && Moderates(op.roles)
  }

  predicate Creates(op: Op, th: Id) {
    op.CreateThread? && op.th == th
  }

  lemma FlagsStep(t: Tables, op: Op, now: int, th: Id)
    requires th in t.threads && !Moderation(op, th) && !Creates(op, th)
    ensures var u := Do(t, op, now).0;
      th in u.threads ==> u.threads[th].pinned == t.threads[th].pinned && u.threads[th].locked == t.threads[th].locked
  {
  }

  lemma GoneStays(t: Tables, op: Op, now: int, th: Id)
    requires th !in t.threads && !Creates(op, th)
    ensures th !in Do(t, op, now).0.threads
  {
  }

  lemma {:induction false} GoneForever(t: Tables, calls: seq<Timed>, th: Id)
    requires th !in t.threads && forall i :: 0 <= i < |calls| ==> !Creates(calls[i].op, th)
    ensures th !in Exec(t, calls).threads
    decreases |calls|
  {
    if calls != [] {
      GoneStays(t, calls[0].op, calls[0].now, th);
      GoneForever(Do(t, calls[0].op, calls[0].now).0, calls[1..], th);
    }
  }

  /** pinned or locked differ between two states only if a moderator or
      administrator updated that very thread in between. */
  lemma {:induction false} FlagsNeedModerator(t: Tables, calls: seq<Timed>, th: Id)
    requires th in t.threads && th in Exec(t, calls).threads
    requires forall i :: 0 <= i < |calls| ==> !Creates(calls[i].op, th)
    requires Exec(t, calls).threads[th].pinned != t.threads[th].pinned
      || Exec(t, calls).threads[th].locked != t.threads[th].locked
    ensures exists i :: 0 <= i < |calls| && Moderation(calls[i].op, th)
    decreases |calls|
  {
    var u := Do(t, calls[0].op, calls[0].now).0;
    if !Moderation(calls[0].op, th) {
      FlagsStep(t, calls[0].op, calls[0].now, th);
      if th !in u.threads {
        GoneForever(u, calls[1..], th);
      }
      FlagsNeedModerator(u, calls[1..], th);
      var i :| 0 <= i < |calls[1..]| && Moderation(calls[1..][i].op, th);
      assert Moderation(calls[i + 1].op, th);
    }
  }

  lemma PostsOfLockedStep(t: Tables, op: Op, now: int, th: Id)
    requires Fresh(t, op) && !Creates(op, th) && (th in t.threads ==> t.threads[th].locked)
    ensures PostsIn(Do(t, op, now).0.posts, th) <= PostsIn(t.posts, th)
  {
  }

  predicate Unlocks(op: Op, th: Id) {
    Moderation(op, th) && op.locked == Some(false)
  }

  lemma LockStays(t: Tables, op: Op, now: int, th: Id)
    requires th in t.threads && t.threads[th].locked && !Unlocks(op, th) && !Creates(op, th)
    ensures var u := Do(t, op, now).0;
      th in u.threads ==> u.threads[th].locked
  {
  }

  /** Until a moderator unlocks a locked thread it stays locked, and its post
      set only shrinks. */
  lemma {:induction false} LockedOnlyShrinks(t: Tables, now: int, calls: seq<Timed>, th: Id)
    requires th in t.threads ==> t.threads[th].locked
    requires Plausible(t, now, calls)
    requires forall i :: 0 <= i < |calls| ==> !Creates(calls[i].op, th) && !Unlocks(calls[i].op, th)
    ensures PostsIn(Exec(t, calls).posts, th) <= PostsIn(t.posts, th)
    ensures th in Exec(t, calls).threads ==> Exec(t, calls).threads[th].locked
    decreases |calls|
  {
    if calls != [] {
      PostsOfLockedStep(t, calls[0].op, calls[0].now, th);
      if th in t.threads {
        LockStays(t, calls[0].op, calls[0].now, th);
      } else {
        GoneStays(t, calls[0].op, calls[0].now, th);
      }
      LockedOnlyShrinks(Do(t, calls[0].op, calls[0].now).0, calls[0].now, calls[1..], th);
    }
  }
}
