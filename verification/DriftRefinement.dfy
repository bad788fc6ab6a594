/** The interleaved calls of StatsDrift, ActivityDrift and GroupRace, when nothing
    comes between their statements, do what the calls of Forum do. */
module DriftRefinement {
  import opened Options
  import Forum
  import Stats = StatsDrift
  import Activity = ActivityDrift
  import Race = GroupRace

  // ------------------------------------------------------------------- the counter

  /** The counters and the posts of the tables. */
  ghost predicate Counts(s: Stats.State, t: Forum.Tables) {
    && s.counts == (map th | th in t.threads :: t.threads[th].postCount)
    && s.posts == (map p | p in t.posts :: t.posts[p].thread)
  }

  lemma SamePosts(s: Stats.State, t: Forum.Tables, th: nat)
    requires Counts(s, t)
    ensures Stats.PostsOf(s, th) == Forum.PostsIn(t.posts, th)
  {
  }

  /** Three actions in a row. */
  lemma ThreeCounts(s: Stats.State, a: Stats.Action, b: Stats.Action, c: Stats.Action)
    requires Stats.Enabled(s, a) && Stats.Enabled(Stats.Apply(s, a), b)
    requires Stats.Enabled(Stats.Apply(Stats.Apply(s, a), b), c)
    ensures Stats.Feasible(s, [a, b, c])
    ensures Stats.Exec(s, [a, b, c]) == Stats.Apply(Stats.Apply(Stats.Apply(s, a), b), c)
  {
    var s1 := Stats.Apply(s, a);
    var s2 := Stats.Apply(s1, b);
    assert [a, b, c][1..] == [b, c] && [b, c][1..] == [c] && [c][1..] == [];
    assert Stats.Feasible(s2, [c]) && Stats.Exec(s2, [c]) == Stats.Apply(s2, c);
    assert Stats.Feasible(s1, [b, c]) && Stats.Exec(s1, [b, c]) == Stats.Exec(s2, [c]);
  }

  /** The three steps of a reply. */
  lemma ReplySteps(s: Stats.State, c: nat, th: nat, p: nat, q: nat)
    requires c !in s.calls && c !in s.crashed && th in s.counts && p !in s.drawn && q !in s.drawn && p != q
    ensures var reply := [Stats.StartReply(c, th), Stats.Step(c, p), Stats.Step(c, q)];
      && Stats.Feasible(s, reply) && Stats.Exec(s, reply).calls == s.calls[c := Stats.Ended]
      && Stats.Exec(s, reply).posts == s.posts[p := th]
      && Stats.Exec(s, reply).counts == s.counts[th := s.counts[th] + 1]
  {
    ThreeCounts(s, Stats.StartReply(c, th), Stats.Step(c, p), Stats.Step(c, q));
  }

  /** What Forum's call does, in one line a table. */
  lemma Posted(t: Forum.Tables, p: nat, th: nat, caller: nat, body: string, now: int)
    requires Forum.DoCreatePost(t, p, th, caller, body, now).1 == Forum.Ok
    ensures var after := Forum.DoCreatePost(t, p, th, caller, body, now).0;
      && th in t.threads && after.posts == t.posts[p := Forum.Post(th, caller, body, None, now)]
      && after.threads == t.threads[th :=
           t.threads[th].(postCount := t.threads[th].postCount + 1, lastPostAt := Some(now))]
  {
  }

  /** One thread and one post are written on both sides. */
  lemma CountsWritten(
    s: Stats.State, t: Forum.Tables, u: Stats.State, after: Forum.Tables,
    th: nat, row: Forum.Thread, p: nat, post: Forum.Post)
    requires Counts(s, t) && after.threads == t.threads[th := row] && after.posts == t.posts[p := post]
    requires u.counts == s.counts[th := row.postCount] && u.posts == s.posts[p := post.thread]
    ensures Counts(u, after)
  {
  }

  /** What the call does to the counters and the posts. */
  lemma ReplyOnTables(
    s: Stats.State, t: Forum.Tables, th: nat, p: nat, caller: nat, body: string, now: int, u: Stats.State)
    requires Counts(s, t) && Forum.DoCreatePost(t, p, th, caller, body, now).1 == Forum.Ok
    requires th in s.counts && u.posts == s.posts[p := th] && u.counts == s.counts[th := s.counts[th] + 1]
    ensures Counts(u, Forum.DoCreatePost(t, p, th, caller, body, now).0)
  {
    Posted(t, p, th, caller, body, now);
    var after := Forum.DoCreatePost(t, p, th, caller, body, now).0;
    CountsWritten(s, t, u, after, th, after.threads[th], p, after.posts[p]);
  }

  /** An undisturbed reply. */
  lemma ReplyCounts(
    s: Stats.State, t: Forum.Tables, c: nat, th: nat, p: nat, q: nat, caller: nat, body: string, now: int)
    requires Counts(s, t) && c !in s.calls && c !in s.crashed && p !in s.drawn && q !in s.drawn && p != q
    requires Forum.DoCreatePost(t, p, th, caller, body, now).1 == Forum.Ok
    ensures var reply := [Stats.StartReply(c, th), Stats.Step(c, p), Stats.Step(c, q)];
      && Stats.Feasible(s, reply) && Stats.Exec(s, reply).calls == s.calls[c := Stats.Ended]
      && Counts(Stats.Exec(s, reply), Forum.DoCreatePost(t, p, th, caller, body, now).0)
  {
    ReplySteps(s, c, th, p, q);
    var reply := [Stats.StartReply(c, th), Stats.Step(c, p), Stats.Step(c, q)];
    ReplyOnTables(s, t, th, p, caller, body, now, Stats.Exec(s, reply));
  }

  lemma DeleteSteps(s: Stats.State, c: nat, p: nat, q: nat, r: nat)
    requires c !in s.calls && c !in s.crashed && p in s.posts && q !in s.drawn && r !in s.drawn
    requires s.posts[p] in s.counts && s.posts[p] in s.ledgers
    ensures var th := s.posts[p];
      var deletion := [Stats.StartDelete(c, p), Stats.Step(c, q), Stats.Step(c, r)];
      && Stats.Feasible(s, deletion) && Stats.Exec(s, deletion).calls == s.calls[c := Stats.Ended]
      && Stats.Exec(s, deletion).posts == s.posts - {p}
      && Stats.Exec(s, deletion).counts == s.counts[th := |Stats.PostsOf(Stats.Exec(s, deletion), th)|]
  {
    ThreeCounts(s, Stats.StartDelete(c, p), Stats.Step(c, q), Stats.Step(c, r));
  }

  lemma DeleteOnTables(s: Stats.State, t: Forum.Tables, p: nat, caller: nat, roles: seq<string>, u: Stats.State)
    requires Counts(s, t) && Forum.DoDeletePost(t, p, caller, roles).1 == Forum.Ok && t.posts[p].thread in t.threads
    requires p in s.posts && u.posts == s.posts - {p}
    requires u.counts == s.counts[s.posts[p] := |Stats.PostsOf(u, s.posts[p])|]
    ensures Counts(u, Forum.DoDeletePost(t, p, caller, roles).0)
  {
    var th := t.posts[p].thread;
    var after := Forum.DoDeletePost(t, p, caller, roles).0;
    assert after.posts == t.posts - {p} && after.threads.Keys == t.threads.Keys;
    assert Stats.PostsOf(u, th) == Forum.PostsIn(after.posts, th);
  }

  /** An undisturbed deletion of a post. */
  lemma DeletionCounts(
    s: Stats.State, t: Forum.Tables, c: nat, p: nat, q: nat, r: nat, caller: nat, roles: seq<string>)
    requires Counts(s, t) && Stats.Inv(s) && c !in s.calls && c !in s.crashed && q !in s.drawn && r !in s.drawn
    requires Forum.DoDeletePost(t, p, caller, roles).1 == Forum.Ok && t.posts[p].thread in t.threads
    ensures var deletion := [Stats.StartDelete(c, p), Stats.Step(c, q), Stats.Step(c, r)];
      && Stats.Feasible(s, deletion) && Stats.Exec(s, deletion).calls == s.calls[c := Stats.Ended]
      && Counts(Stats.Exec(s, deletion), Forum.DoDeletePost(t, p, caller, roles).0)
  {
    DeleteSteps(s, c, p, q, r);
    var deletion := [Stats.StartDelete(c, p), Stats.Step(c, q), Stats.Step(c, r)];
    DeleteOnTables(s, t, p, caller, roles, Stats.Exec(s, deletion));
  }

  /** A thread with its first post. */
  lemma OpeningCounts(
    s: Stats.State, t: Forum.Tables, th: nat, g: nat, p: nat, caller: nat, title: string, body: string, now: int)
    requires Counts(s, t) && Forum.DoCreateThread(t, th, g, p, caller, title, body, now).1 == Forum.Ok
    requires Stats.Enabled(s, Stats.OpenThread(th, p))
    ensures Counts(Stats.Apply(s, Stats.OpenThread(th, p)),
                   Forum.DoCreateThread(t, th, g, p, caller, title, body, now).0)
  {
    Opened(t, th, g, p, caller, title, body, now);
    var after := Forum.DoCreateThread(t, th, g, p, caller, title, body, now).0;
    CountsWritten(s, t, Stats.Apply(s, Stats.OpenThread(th, p)), after, th, after.threads[th], p, after.posts[p]);
  }

  /** What Forum's call does, in one line a table. */
  lemma Opened(t: Forum.Tables, th: nat, g: nat, p: nat, caller: nat, title: string, body: string, now: int)
    requires Forum.DoCreateThread(t, th, g, p, caller, title, body, now).1 == Forum.Ok
    ensures var after := Forum.DoCreateThread(t, th, g, p, caller, title, body, now).0;
      && g in t.groups && after.posts == t.posts[p := Forum.Post(th, caller, body, None, now)]
      && after.threads == t.threads[th := Forum.Thread(g, caller, title, false, false, 0, 1, Some(now))]
      && after.groups == t.groups
  {
  }

  /** The deletion of a thread, with its posts. */
  lemma DropCounts(s: Stats.State, t: Forum.Tables, th: nat, caller: nat, roles: seq<string>)
    requires Counts(s, t) && Forum.DoDeleteThread(t, th, caller, roles).1 == Forum.Ok
    ensures Counts(Stats.Apply(s, Stats.DropThread(th)), Forum.DoDeleteThread(t, th, caller, roles).0)
  {
    Dropped(t, th, caller, roles);
    SamePosts(s, t, th);
  }

  lemma Dropped(t: Forum.Tables, th: nat, caller: nat, roles: seq<string>)
    requires Forum.DoDeleteThread(t, th, caller, roles).1 == Forum.Ok
    ensures var after := Forum.DoDeleteThread(t, th, caller, roles).0;
      && after.threads == t.threads - {th} && after.posts == t.posts - Forum.PostsIn(t.posts, th)
      && after.groups == t.groups
  {
    assert (set p | p in t.posts && t.posts[p].thread in {th}) == Forum.PostsIn(t.posts, th);
  }

  // ------------------------------------------------------------- the activity time

  ghost predicate Times(s: Activity.State, t: Forum.Tables) {
    && s.last == (map th | th in t.threads :: t.threads[th].lastPostAt)
    && s.posts == (map p | p in t.posts :: Activity.Post(t.posts[p].thread, t.posts[p].createdAt))
  }

  lemma ThreeTimes(s: Activity.State, a: Activity.Action, b: Activity.Action, c: Activity.Action)
    requires Activity.Enabled(s, a) && Activity.Enabled(Activity.Apply(s, a), b)
    requires Activity.Enabled(Activity.Apply(Activity.Apply(s, a), b), c)
    ensures Activity.Feasible(s, [a, b, c])
    ensures Activity.Exec(s, [a, b, c]) == Activity.Apply(Activity.Apply(Activity.Apply(s, a), b), c)
  {
    var s1 := Activity.Apply(s, a);
    var s2 := Activity.Apply(s1, b);
    assert [a, b, c][1..] == [b, c] && [b, c][1..] == [c] && [c][1..] == [];
    assert Activity.Feasible(s2, [c]) && Activity.Exec(s2, [c]) == Activity.Apply(s2, c);
    assert Activity.Feasible(s1, [b, c]) && Activity.Exec(s1, [b, c]) == Activity.Exec(s2, [c]);
  }

  lemma TimedReplySteps(s: Activity.State, c: nat, th: nat, p: nat, q: nat)
    requires c !in s.calls && th in s.last && p !in s.drawn && q !in s.drawn && p != q
    ensures var reply := [Activity.StartReply(c, th), Activity.Step(c, p), Activity.Step(c, q)];
      && Activity.Feasible(s, reply) && Activity.Exec(s, reply).calls == s.calls[c := Activity.Ended]
      && Activity.Exec(s, reply).posts == s.posts[p := Activity.Post(th, s.now)]
      && Activity.Exec(s, reply).last == s.last[th := Some(s.now)]
  {
    ThreeTimes(s, Activity.StartReply(c, th), Activity.Step(c, p), Activity.Step(c, q));
  }

  lemma TimesWritten(
    s: Activity.State, t: Forum.Tables, u: Activity.State, after: Forum.Tables,
    th: nat, row: Forum.Thread, p: nat, post: Forum.Post)
    requires Times(s, t) && after.threads == t.threads[th := row] && after.posts == t.posts[p := post]
    requires u.last == s.last[th := row.lastPostAt]
    requires u.posts == s.posts[p := Activity.Post(post.thread, post.createdAt)]
    ensures Times(u, after)
  {
  }

  lemma ReplyOnTimes(s: Activity.State, t: Forum.Tables, th: nat, p: nat, caller: nat, body: string, u: Activity.State)
    requires Times(s, t) && Forum.DoCreatePost(t, p, th, caller, body, s.now).1 == Forum.Ok
    requires u.posts == s.posts[p := Activity.Post(th, s.now)] && u.last == s.last[th := Some(s.now)]
    ensures Times(u, Forum.DoCreatePost(t, p, th, caller, body, s.now).0)
  {
    Posted(t, p, th, caller, body, s.now);
    var after := Forum.DoCreatePost(t, p, th, caller, body, s.now).0;
    TimesWritten(s, t, u, after, th, after.threads[th], p, after.posts[p]);
  }

  lemma ReplyTimes(s: Activity.State, t: Forum.Tables, c: nat, th: nat, p: nat, q: nat, caller: nat, body: string)
    requires Times(s, t) && c !in s.calls && p !in s.drawn && q !in s.drawn && p != q
    requires Forum.DoCreatePost(t, p, th, caller, body, s.now).1 == Forum.Ok
    ensures var reply := [Activity.StartReply(c, th), Activity.Step(c, p), Activity.Step(c, q)];
      && Activity.Feasible(s, reply) && Activity.Exec(s, reply).calls == s.calls[c := Activity.Ended]
      && Times(Activity.Exec(s, reply), Forum.DoCreatePost(t, p, th, caller, body, s.now).0)
  {
    TimedReplySteps(s, c, th, p, q);
    var reply := [Activity.StartReply(c, th), Activity.Step(c, p), Activity.Step(c, q)];
    ReplyOnTimes(s, t, th, p, caller, body, Activity.Exec(s, reply));
  }

  lemma TimedDeleteSteps(s: Activity.State, c: nat, p: nat, q: nat, r: nat)
    requires c !in s.calls && p in s.posts && q !in s.drawn && r !in s.drawn && s.posts[p].thread in s.last
    ensures var th := s.posts[p].thread;
      var deletion := [Activity.StartDelete(c, p), Activity.Step(c, q), Activity.Step(c, r)];
      && Activity.Feasible(s, deletion) && Activity.Exec(s, deletion).calls == s.calls[c := Activity.Ended]
      && Activity.Exec(s, deletion).posts == s.posts - {p}
      && Activity.Exec(s, deletion).last == s.last[th := Activity.Max(Activity.TimesOf(s.posts - {p}, th))]
  {
    ThreeTimes(s, Activity.StartDelete(c, p), Activity.Step(c, q), Activity.Step(c, r));
  }

  /** The two models speak of the same maximum. */
  lemma SameMax(posts: map<nat, Forum.Post>, plain: map<nat, Activity.Post>, th: nat)
    requires plain == (map p | p in posts :: Activity.Post(posts[p].thread, posts[p].createdAt))
    ensures Activity.Max(Activity.TimesOf(plain, th)) == Forum.Latest(posts, Forum.PostsIn(posts, th))
  {
    var ids := Forum.PostsIn(posts, th);
    var times := Activity.TimesOf(plain, th);
    var m := Activity.Max(times);
    assert Activity.IsMax(times, m) && times.Keys == ids;
    assert forall p :: p in ids ==> times[p] == posts[p].createdAt;
    if m.Some? {
      var p :| p in times && times[p] == m.value;
      assert p in ids && posts[p].createdAt == m.value;
    }
    Forum.LatestIsUnique(posts, ids, m, Forum.Latest(posts, ids));
  }

  lemma DeleteOnTimes(s: Activity.State, t: Forum.Tables, p: nat, caller: nat, roles: seq<string>, u: Activity.State)
    requires Times(s, t) && Forum.DoDeletePost(t, p, caller, roles).1 == Forum.Ok && t.posts[p].thread in t.threads
    requires u.posts == s.posts - {p}
    requires u.last == s.last[t.posts[p].thread := Activity.Max(Activity.TimesOf(s.posts - {p}, t.posts[p].thread))]
    ensures Times(u, Forum.DoDeletePost(t, p, caller, roles).0)
  {
    var after := Forum.DoDeletePost(t, p, caller, roles).0;
    assert after.posts == t.posts - {p} && after.threads.Keys == t.threads.Keys;
    SameMax(after.posts, u.posts, t.posts[p].thread);
  }

  lemma DeletionTimes(
    s: Activity.State, t: Forum.Tables, c: nat, p: nat, q: nat, r: nat, caller: nat, roles: seq<string>)
    requires Times(s, t) && c !in s.calls && q !in s.drawn && r !in s.drawn
    requires Forum.DoDeletePost(t, p, caller, roles).1 == Forum.Ok && t.posts[p].thread in t.threads
    ensures var deletion := [Activity.StartDelete(c, p), Activity.Step(c, q), Activity.Step(c, r)];
      && Activity.Feasible(s, deletion) && Activity.Exec(s, deletion).calls == s.calls[c := Activity.Ended]
      && Times(Activity.Exec(s, deletion), Forum.DoDeletePost(t, p, caller, roles).0)
  {
    TimedDeleteSteps(s, c, p, q, r);
    var deletion := [Activity.StartDelete(c, p), Activity.Step(c, q), Activity.Step(c, r)];
    DeleteOnTimes(s, t, p, caller, roles, Activity.Exec(s, deletion));
  }

  lemma OpeningTimes(
    s: Activity.State, t: Forum.Tables, th: nat, g: nat, p: nat, caller: nat, title: string, body: string)
    requires Times(s, t) && Forum.DoCreateThread(t, th, g, p, caller, title, body, s.now).1 == Forum.Ok
    requires Activity.Enabled(s, Activity.OpenThread(th, p))
    ensures Times(Activity.Apply(s, Activity.OpenThread(th, p)),
                  Forum.DoCreateThread(t, th, g, p, caller, title, body, s.now).0)
  {
    Opened(t, th, g, p, caller, title, body, s.now);
    var after := Forum.DoCreateThread(t, th, g, p, caller, title, body, s.now).0;
    TimesWritten(s, t, Activity.Apply(s, Activity.OpenThread(th, p)), after, th, after.threads[th], p, after.posts[p]);
  }

  lemma DropTimes(s: Activity.State, t: Forum.Tables, th: nat, caller: nat, roles: seq<string>)
    requires Times(s, t) && Forum.DoDeleteThread(t, th, caller, roles).1 == Forum.Ok
    ensures Times(Activity.Apply(s, Activity.DropThread(th)), Forum.DoDeleteThread(t, th, caller, roles).0)
  {
    Dropped(t, th, caller, roles);
    assert Activity.TimesOf(s.posts, th).Keys == Forum.PostsIn(t.posts, th);
  }

  // ---------------------------------------------- groups, and the deletion of a group

  /** The groups, and the group of every thread. */
  ghost predicate Filed(s: Race.State, t: Forum.Tables) {
    s.groups == t.groups.Keys && s.threads == (map th | th in t.threads :: t.threads[th].group)
  }

  lemma ThreeFiled(s: Race.State, g: nat, c: nat, th: nat)
    requires c !in s.calls && th !in s.drawn && g in s.groups && Race.ThreadsOf(s, g) == {}
    ensures var deletion := [Race.StartDelete(c, g), Race.Step(c, th), Race.Step(c, th), Race.Step(c, th)];
      && Race.Feasible(s, deletion)
      && Race.Exec(s, deletion) == s.(groups := s.groups - {g}, calls := s.calls[c := Race.Ended])
  {
    var s1 := s.(calls := s.calls[c := Race.Checking(g)]);
    var s2 := s.(calls := s.calls[c := Race.Counting(g)]);
    var s3 := s.(calls := s.calls[c := Race.Deleting(g)]);
    var s4 := s.(groups := s.groups - {g}, calls := s.calls[c := Race.Ended]);
    assert Race.ThreadsOf(s2, g) == {} && Race.ThreadsOf(s3, g) == {} && s.threads - {} == s.threads;
    assert Race.Apply(s, Race.StartDelete(c, g)) == s1 && Race.Apply(s1, Race.Step(c, th)) == s2;
    assert Race.Apply(s2, Race.Step(c, th)) == s3 && Race.Apply(s3, Race.Step(c, th)) == s4;
    Race.ExecCons(s3, Race.Step(c, th), []);
    Race.ExecCons(s2, Race.Step(c, th), [Race.Step(c, th)]);
    Race.ExecCons(s1, Race.Step(c, th), [Race.Step(c, th), Race.Step(c, th)]);
    Race.ExecCons(s, Race.StartDelete(c, g), [Race.Step(c, th), Race.Step(c, th), Race.Step(c, th)]);
  }

  /** An undisturbed deletion of an empty group. */
  lemma DeletionFiles(s: Race.State, t: Forum.Tables, c: nat, g: nat, th: nat)
    requires Filed(s, t) && c !in s.calls && th !in s.drawn && Forum.DoDeleteGroup(t, g).1 == Forum.Ok
    ensures var deletion := [Race.StartDelete(c, g), Race.Step(c, th), Race.Step(c, th), Race.Step(c, th)];
      Race.Feasible(s, deletion) && Filed(Race.Exec(s, deletion), Forum.DoDeleteGroup(t, g).0)
  {
    assert Race.ThreadsOf(s, g) == {};
    ThreeFiled(s, g, c, th);
    var after := Forum.DoDeleteGroup(t, g).0;
    assert after.threads == t.threads && after.groups.Keys == t.groups.Keys - {g};
  }

  /** An undisturbed deletion of a group with threads stops after the count. */
  lemma DeletionRefused(s: Race.State, t: Forum.Tables, c: nat, g: nat, th: nat)
    requires Filed(s, t) && c !in s.calls && th !in s.drawn && Forum.DoDeleteGroup(t, g).1 == Forum.NotEmpty
    ensures var deletion := [Race.StartDelete(c, g), Race.Step(c, th), Race.Step(c, th)];
      Race.Feasible(s, deletion) && Race.Exec(s, deletion) == s.(calls := s.calls[c := Race.Ended])
  {
    var s1 := s.(calls := s.calls[c := Race.Checking(g)]);
    var s2 := s.(calls := s.calls[c := Race.Counting(g)]);
    var some :| some in t.threads && t.threads[some].group == g;
    assert some in Race.ThreadsOf(s2, g);
    assert Race.Apply(s, Race.StartDelete(c, g)) == s1 && Race.Apply(s1, Race.Step(c, th)) == s2;
    Race.ExecCons(s2, Race.Step(c, th), []);
    Race.ExecCons(s1, Race.Step(c, th), [Race.Step(c, th)]);
    Race.ExecCons(s, Race.StartDelete(c, g), [Race.Step(c, th), Race.Step(c, th)]);
  }

  lemma OpeningSteps(s: Race.State, c: nat, th: nat, g: nat)
    requires c !in s.calls && th !in s.drawn && g in s.groups
    ensures var opening := [Race.StartOpen(c, g), Race.Step(c, th)];
      && Race.Feasible(s, opening) && Race.Exec(s, opening).calls == s.calls[c := Race.Ended]
      && Race.Exec(s, opening).groups == s.groups && Race.Exec(s, opening).threads == s.threads[th := g]
  {
    var s1 := Race.Apply(s, Race.StartOpen(c, g));
    Race.ExecCons(s1, Race.Step(c, th), []);
    Race.ExecCons(s, Race.StartOpen(c, g), [Race.Step(c, th)]);
    assert [Race.Step(c, th)] + [] == [Race.Step(c, th)];
    assert [Race.StartOpen(c, g)] + [Race.Step(c, th)] == [Race.StartOpen(c, g), Race.Step(c, th)];
  }

  lemma ThreadFiled(s: Race.State, t: Forum.Tables, u: Race.State, after: Forum.Tables, th: nat, row: Forum.Thread)
    requires Filed(s, t) && after.groups == t.groups && after.threads == t.threads[th := row]
    requires u.groups == s.groups && u.threads == s.threads[th := row.group]
    ensures Filed(u, after)
  {
  }

  /** An undisturbed creation of a thread; its group was seen first. */
  lemma OpeningFiles(
    s: Race.State, t: Forum.Tables, c: nat, th: nat, g: nat, p: nat, caller: nat, title: string, body: string, now: int)
    requires Filed(s, t) && c !in s.calls && th !in s.drawn
    requires Forum.DoCreateThread(t, th, g, p, caller, title, body, now).1 == Forum.Ok
    ensures var opening := [Race.StartOpen(c, g), Race.Step(c, th)];
      && Race.Feasible(s, opening) && Race.Exec(s, opening).calls == s.calls[c := Race.Ended]
      && Filed(Race.Exec(s, opening), Forum.DoCreateThread(t, th, g, p, caller, title, body, now).0)
  {
    Opened(t, th, g, p, caller, title, body, now);
    OpeningSteps(s, c, th, g);
    var after := Forum.DoCreateThread(t, th, g, p, caller, title, body, now).0;
    var u := Race.Exec(s, [Race.StartOpen(c, g), Race.Step(c, th)]);
    ThreadFiled(s, t, u, after, th, after.threads[th]);
  }

  lemma DropFiles(s: Race.State, t: Forum.Tables, th: nat, caller: nat, roles: seq<string>)
    requires Filed(s, t) && Forum.DoDeleteThread(t, th, caller, roles).1 == Forum.Ok
    ensures Filed(Race.Apply(s, Race.DropThread(th)), Forum.DoDeleteThread(t, th, caller, roles).0)
  {
    Dropped(t, th, caller, roles);
  }
}
