/** The statements and the service calls as methods on the tables: each call is
    the sequence of statements the service issues, and computes what `Do` says. */
module ForumServices {
  import opened Options
  import opened Forum
  import opened ForumInvariants
  import opened Text

  /** ON DELETE SET NULL: the attachments of posts that are gone, and no others, lose
      their post. */
  ghost predicate Detaches(before: map<Id, Attachment>, after: map<Id, Attachment>, gone: set<Id>) {
    && after.Keys == before.Keys
    && forall a :: a in after ==>
         after[a] == if before[a].post.Some? && before[a].post.value in gone then Attachment(before[a].owner, None)
                     else before[a]
  }

  /** g is gone, its children have no parent, all other groups stay as they are. */
  ghost predicate Orphans(before: map<Id, Group>, after: map<Id, Group>, g: Id) {
    && after.Keys == before.Keys - {g}
    && forall h :: h in after ==> after[h] == if before[h].parent == Some(g) then Group(None) else before[h]
  }

  /** A flag after an update: what a moderator asked for, or what it was. */
  function Asked(roles: seq<string>, request: Option<bool>, flag: bool): bool {
    if request.Some? && ("admin" in roles || "moderator" in roles) then request.value else flag
  }

  lemma PickedPost(all: set<Id>, rest: set<Id>, p: Id)
    requires p in rest
    ensures all - (rest - {p}) == if p in all then (all - rest) + {p} else all - rest
    ensures p in all ==> |(all - rest) + {p}| == |all - rest| + 1
  {
  }

  class Database {
    var groups: map<Id, Group>
    var threads: map<Id, Thread>
    var posts: map<Id, Post>
    var attachments: map<Id, Attachment>

    constructor ()
      ensures Snapshot() == Tables(map[], map[], map[], map[])
    {
      groups, threads, posts, attachments := map[], map[], map[], map[];
    }

    ghost function Snapshot(): Tables
      reads this
    {
      Tables(groups, threads, posts, attachments)
    }

    // threads

    method InsertThread(th: Id, g: Id, author: Id, title: string)
      modifies this`threads
      ensures Snapshot() == ThreadInserted(old(Snapshot()), th, g, author, title)
      ensures threads == old(threads)[th := Thread(g, author, title, false, false, 0, 0, None)]
    {
      threads := threads[th := Thread(g, author, title, false, false, 0, 0, None)];
    }

    method BumpPost(th: Id, at: int)
      modifies this`threads
      ensures Snapshot() == Bumped(old(Snapshot()), th, at)
      ensures th in old(threads) ==>
        threads == old(threads)[th :=
          old(threads)[th].(postCount := old(threads)[th].postCount + 1, lastPostAt := Some(at))]
      ensures th !in old(threads) ==> threads == old(threads)
    {
      if th in threads {
        var row := threads[th];
        threads := threads[th := row.(postCount := row.postCount + 1, lastPostAt := Some(at))];
      }
    }

    /** SELECT count(*), max(created_at) over the posts of the thread. */
    method Aggregate(th: Id) returns (n: nat, last: Option<int>)
      ensures n == |PostsIn(posts, th)| && last == Latest(posts, PostsIn(posts, th))
    {
      ghost var all := PostsIn(posts, th);
      var rest := posts.Keys;
      n, last := 0, None;
      assert all - rest == {};
      while rest != {}
        invariant rest <= posts.Keys
        invariant n == |all - rest| && IsLatest(posts, all - rest, last)
      {
        var p :| p in rest;
        PickedPost(all, rest, p);
        if posts[p].thread == th {
          LatestAdd(posts, all - rest, last, p);
          n, last := n + 1, Later(last, posts[p].createdAt);
        }
        rest := rest - {p};
      }
      assert all - {} == all;
      LatestIsUnique(posts, all, last, Latest(posts, all));
    }

    method RecalcStats(th: Id)
      modifies this`threads
      ensures Snapshot() == Recalculated(old(Snapshot()), th)
      ensures th in old(threads) ==>
        && th in threads && threads[th].postCount == |PostsIn(posts, th)|
        && IsLatest(posts, PostsIn(posts, th), threads[th].lastPostAt)
        && threads == old(threads)[th :=
             old(threads)[th].(postCount := threads[th].postCount, lastPostAt := threads[th].lastPostAt)]
      ensures th !in old(threads) ==> threads == old(threads)
    {
      if th in threads {
        var n, last := Aggregate(th);
        threads := threads[th := threads[th].(postCount := n, lastPostAt := last)];
      }
    }

    method UpdateThread(th: Id, title: string, pinned: bool, locked: bool) returns (found: bool)
      modifies this`threads
      ensures found <==> th in old(threads)
      ensures threads ==
        if found then old(threads)[th := old(threads)[th].(title := title, pinned := pinned, locked := locked)]
        else old(threads)
    {
      found := th in threads;
      if found {
        threads := threads[th := threads[th].(title := title, pinned := pinned, locked := locked)];
      }
    }

    method IncrementViews(th: Id)
      modifies this`threads
      ensures threads ==
        if th in old(threads) then old(threads)[th := old(threads)[th].(views := old(threads)[th].views + 1)]
        else old(threads)
    {
      if th in threads {
        threads := threads[th := threads[th].(views := threads[th].views + 1)];
      }
    }

    method DeleteThreads(gone: set<Id>)
      modifies this`threads, this`posts, this`attachments
      ensures Snapshot() == ThreadsDeleted(old(Snapshot()), gone)
      ensures threads == old(threads) - gone
      ensures forall p :: p in posts <==> p in old(posts) && old(posts)[p].thread !in gone
      ensures forall p :: p in posts ==> posts[p] == old(posts)[p]
      ensures Detaches(old(attachments), attachments, old(posts).Keys - posts.Keys)
    {
      var cascaded := set p | p in posts && posts[p].thread in gone;
      threads := threads - gone;
      posts := posts - cascaded;
      attachments := Detached(attachments, cascaded);
    }

    method CountByGroup(g: Id) returns (n: nat)
      ensures n == |set th | th in threads && threads[th].group == g|
      ensures n == 0 <==> !exists th :: th in threads && threads[th].group == g
    {
      var found := set th | th in threads && threads[th].group == g;
      n := |found|;
      assert forall th :: th in threads && threads[th].group == g ==> th in found;
    }

    method DeleteGroupRow(g: Id)
      modifies this
      ensures Snapshot() == GroupDeleted(old(Snapshot()), g)
      ensures Orphans(old(groups), groups, g)
      ensures forall th :: th in threads <==> th in old(threads) && old(threads)[th].group != g
      ensures forall th :: th in threads ==> threads[th] == old(threads)[th]
      ensures forall p :: p in posts <==>
        p in old(posts) && !(old(posts)[p].thread in old(threads) && old(threads)[old(posts)[p].thread].group == g)
      ensures forall p :: p in posts ==> posts[p] == old(posts)[p]
      ensures Detaches(old(attachments), attachments, old(posts).Keys - posts.Keys)
    {
      var cascaded := set th | th in threads && threads[th].group == g;
      groups := map h | h in groups && h != g :: if groups[h].parent == Some(g) then Group(None) else groups[h];
      DeleteThreads(cascaded);
    }

    // posts

    method InsertPost(p: Id, th: Id, author: Id, body: string, now: int)
      modifies this`posts
      ensures Snapshot() == PostInserted(old(Snapshot()), p, th, author, body, now)
      ensures posts == old(posts)[p := Post(th, author, body, None, now)]
    {
      posts := posts[p := Post(th, author, body, None, now)];
    }

    method UpdateBody(p: Id, body: string, editor: Id) returns (found: bool)
      modifies this`posts
      ensures found <==> p in old(posts)
      ensures posts ==
        if found then old(posts)[p := old(posts)[p].(body := body, editedBy := Some(editor))] else old(posts)
    {
      found := p in posts;
      if found {
        posts := posts[p := posts[p].(body := body, editedBy := Some(editor))];
      }
    }

    method DeletePostRow(p: Id) returns (found: bool)
      modifies this`posts, this`attachments
      ensures found <==> p in old(posts)
      ensures Snapshot() == if found then PostsDeleted(old(Snapshot()), {p}) else old(Snapshot())
      ensures posts == old(posts) - {p}
      ensures found ==> Detaches(old(attachments), attachments, {p})
      ensures !found ==> attachments == old(attachments)
    {
      found := p in posts;
      if found {
        posts := posts - {p};
        attachments := Detached(attachments, {p});
      }
    }

    // services

    method DeleteGroup(g: Id) returns (r: Outcome)
      modifies this
      ensures (Snapshot(), r) == DoDeleteGroup(old(Snapshot()), g)
      ensures r == Ok <==> g in old(groups) && !exists th :: th in old(threads) && old(threads)[th].group == g
      ensures r == Ok ==> Orphans(old(groups), groups, g) && threads == old(threads)
      ensures r == GroupNotFound <==> g !in old(groups)
      ensures old(References(Snapshot())) ==> posts == old(posts) && attachments == old(attachments)
      ensures r != Ok ==> Snapshot() == old(Snapshot())
    {
      if g !in groups {
        return GroupNotFound;
      }
      var n := CountByGroup(g);
      if n > 0 {
        return NotEmpty;
      }
      DeleteGroupRow(g);
      r := Ok;
    }

    /** One transaction: the thread, its first post, and the count. */
    method CreateThread(th: Id, g: Id, p: Id, caller: Id, title: string, body: string, now: int) returns (r: Outcome)
      modifies this`threads, this`posts
      ensures (Snapshot(), r) == DoCreateThread(old(Snapshot()), th, g, p, caller, title, body, now)
      ensures r == Ok <==> g in old(groups) && 0 < |TrimSpace(title)| <= 200 && 0 < |TrimSpace(body)| <= 50000
      ensures r == GroupNotFound <==> g !in old(groups)
      ensures r == Ok ==> threads == old(threads)[th := Thread(g, caller, title, false, false, 0, 1, Some(now))]
      ensures r == Ok ==> posts == old(posts)[p := Post(th, caller, body, None, now)]
      ensures r != Ok ==> Snapshot() == old(Snapshot())
    {
      if g !in groups {
        return GroupNotFound;
      }
      if !ValidTitle(title) {
        return InvalidInput;
      }
      if !ValidBody(body) {
        return InvalidInput;
      }
      InsertThread(th, g, caller, title);
      InsertPost(p, th, caller, body, now);
      BumpPost(th, now);
      r := Ok;
    }

    method GetThread(th: Id) returns (r: Outcome)
      modifies this`threads
      ensures (Snapshot(), r) == DoGetThread(old(Snapshot()), th)
      ensures r == Ok <==> th in old(threads)
      ensures r == Ok ==> threads == old(threads)[th := old(threads)[th].(views := old(threads)[th].views + 1)]
      ensures r != Ok ==> Snapshot() == old(Snapshot())
    {
      if th !in threads {
        return ThreadNotFound;
      }
      IncrementViews(th);
      r := Ok;
    }

    /** Reads the row, assigns its fields, writes them all back. */
    method EditThread(
      th: Id, newTitle: Option<string>, pinned: Option<bool>, locked: Option<bool>,
      caller: Id, roles: seq<string>) returns (r: Outcome)
      modifies this`threads
      ensures (Snapshot(), r) == DoUpdateThread(old(Snapshot()), th, newTitle, pinned, locked, caller, roles)
      ensures r == Ok <==>
        && th in old(threads) && (old(threads)[th].author == caller || "admin" in roles || "moderator" in roles)
        && (newTitle.Some? ==> old(threads)[th].author == caller && 0 < |TrimSpace(newTitle.value)| <= 200)
      ensures r == ThreadNotFound <==> th !in old(threads)
      ensures r == Forbidden <==>
        && th in old(threads) && old(threads)[th].author != caller
        && (newTitle.Some? || !("admin" in roles || "moderator" in roles))
      ensures r == Ok ==> threads == old(threads)[th := old(threads)[th].(
        title := if newTitle.Some? then newTitle.value else old(threads)[th].title,
        pinned := Asked(roles, pinned, old(threads)[th].pinned),
        locked := Asked(roles, locked, old(threads)[th].locked))]
      ensures r != Ok ==> Snapshot() == old(Snapshot())
    {
      if th !in threads {
        return ThreadNotFound;
      }
      var t := threads[th];
      var moderator := Moderates(roles);
      if t.author != caller && !moderator {
        return Forbidden;
      }
      if newTitle.Some? {
        if t.author != caller {
          return Forbidden;
        }
        if !ValidTitle(newTitle.value) {
          return InvalidInput;
        }
        t := t.(title := newTitle.value);
      }
      if moderator && pinned.Some? {
        t := t.(pinned := pinned.value);
      }
      if moderator && locked.Some? {
        t := t.(locked := locked.value);
      }
      var found := UpdateThread(th, t.title, t.pinned, t.locked);
      r := if found then Ok else ThreadNotFound;
    }

    method DeleteThread(th: Id, caller: Id, roles: seq<string>) returns (r: Outcome)
      modifies this`threads, this`posts, this`attachments
      ensures (Snapshot(), r) == DoDeleteThread(old(Snapshot()), th, caller, roles)
      ensures r == Ok <==>
        th in old(threads) && (old(threads)[th].author == caller || "admin" in roles || "moderator" in roles)
      ensures r == ThreadNotFound <==> th !in old(threads)
      ensures r == Ok ==> threads == old(threads) - {th}
      ensures r == Ok ==> posts == old(posts) - PostsIn(old(posts), th)
      ensures r == Ok ==> Detaches(old(attachments), attachments, old(posts).Keys - posts.Keys)
      ensures r != Ok ==> Snapshot() == old(Snapshot())
    {
      if th !in threads {
        return ThreadNotFound;
      }
      if threads[th].author != caller && !Moderates(roles) {
        return Forbidden;
      }
      DeleteThreads({th});
      r := Ok;
    }

    method CreatePost(p: Id, th: Id, caller: Id, body: string, now: int) returns (r: Outcome)
      modifies this`threads, this`posts
      ensures (Snapshot(), r) == DoCreatePost(old(Snapshot()), p, th, caller, body, now)
      ensures r == Ok <==> th in old(threads) && !old(threads)[th].locked && 0 < |TrimSpace(body)| <= 50000
      ensures r == ThreadNotFound <==> th !in old(threads)
      ensures r == ThreadLocked <==> th in old(threads) && old(threads)[th].locked
      ensures r == Ok ==> posts == old(posts)[p := Post(th, caller, body, None, now)]
      ensures r == Ok ==> threads == old(threads)[th :=
        old(threads)[th].(postCount := old(threads)[th].postCount + 1, lastPostAt := Some(now))]
      ensures old(Stats(Snapshot()) && Past(Snapshot(), now)) && p !in old(posts) ==> Stats(Snapshot())
      ensures r != Ok ==> Snapshot() == old(Snapshot())
    {
      ghost var before := Snapshot();
      if Stats(before) && Past(before, now) && p !in posts {
        StatsCreatePost(before, p, th, caller, body, now);
      }
      if th !in threads {
        return ThreadNotFound;
      }
      if threads[th].locked {
        return ThreadLocked;
      }
      if !ValidBody(body) {
        return InvalidInput;
      }
      InsertPost(p, th, caller, body, now);
      BumpPost(th, now);
      r := Ok;
    }

    method EditPost(p: Id, caller: Id, body: string) returns (r: Outcome)
      modifies this`posts
      ensures (Snapshot(), r) == DoUpdatePost(old(Snapshot()), p, caller, body)
      ensures r == Ok <==> p in old(posts) && old(posts)[p].author == caller && 0 < |TrimSpace(body)| <= 50000
      ensures r == PostNotFound <==> p !in old(posts)
      ensures r == Forbidden <==> p in old(posts) && old(posts)[p].author != caller
      ensures r == Ok ==> posts == old(posts)[p := old(posts)[p].(body := body, editedBy := Some(caller))]
      ensures r != Ok ==> Snapshot() == old(Snapshot())
    {
      if p !in posts {
        return PostNotFound;
      }
      if posts[p].author != caller {
        return Forbidden;
      }
      if !ValidBody(body) {
        return InvalidInput;
      }
      var found := UpdateBody(p, body, caller);
      r := if found then Ok else PostNotFound;
    }

    method DeletePost(p: Id, caller: Id, roles: seq<string>) returns (r: Outcome)
      modifies this`threads, this`posts, this`attachments
      ensures (Snapshot(), r) == DoDeletePost(old(Snapshot()), p, caller, roles)
      ensures r == Ok <==>
        p in old(posts) && (old(posts)[p].author == caller || "admin" in roles || "moderator" in roles)
      ensures r == PostNotFound <==> p !in old(posts)
      ensures r == Ok ==> posts == old(posts) - {p} && Detaches(old(attachments), attachments, {p})
      ensures r == Ok ==> forall th :: th in threads <==> th in old(threads)
      ensures r == Ok ==> forall th :: th in threads ==>
        threads[th] == if th != old(posts)[p].thread then old(threads)[th]
                       else old(threads)[th].(postCount := |PostsIn(posts, th)|, lastPostAt := threads[th].lastPostAt)
      ensures r == Ok && old(posts)[p].thread in threads ==>
        IsLatest(posts, PostsIn(posts, old(posts)[p].thread), threads[old(posts)[p].thread].lastPostAt)
      ensures old(Stats(Snapshot())) ==> Stats(Snapshot())
      ensures r != Ok ==> Snapshot() == old(Snapshot())
    {
      ghost var before := Snapshot();
      if Stats(before) {
        StatsDeletePost(before, p, caller, roles);
      }
      if p !in posts {
        return PostNotFound;
      }
      var post := posts[p];
      if post.author != caller && !Moderates(roles) {
        return Forbidden;
      }
      var found := DeletePostRow(p);
      if !found {
        return PostNotFound;
      }
      RecalcStats(post.thread);
      r := Ok;
    }

    method CreateGroup(g: Id, parent: Option<Id>) returns (r: Outcome)
      requires g !in groups && g != NIL
      modifies this`groups
      ensures (Snapshot(), r) == DoCreateGroup(old(Snapshot()), g, parent)
      ensures r == Ok <==> parent.None? || (parent.value != NIL && (parent.value in old(groups) || parent.value == g))
      ensures r == InvalidInput <==> parent == Some(NIL)
      ensures groups == if r == Ok then old(groups)[g := Group(parent)] else old(groups)
    {
      if parent == Some(NIL) {
        return InvalidInput;
      }
      if parent.Some? && parent.value !in groups && parent.value != g {
        return ForeignKeyError;
      }
      groups := groups[g := Group(parent)];
      r := Ok;
    }

    method UpdateGroup(g: Id, parent: Option<Id>) returns (r: Outcome)
      modifies this`groups
      ensures (Snapshot(), r) == DoUpdateGroup(old(Snapshot()), g, parent)
      ensures r == Ok <==> g in old(groups) && (parent.None? || (parent.value != NIL && parent.value in old(groups)))
      ensures r == InvalidInput <==> parent == Some(NIL)
      ensures r == GroupNotFound <==> parent != Some(NIL) && g !in old(groups)
      ensures groups == if r == Ok then old(groups)[g := Group(parent)] else old(groups)
    {
      if parent == Some(NIL) {
        return InvalidInput;
      }
      if g !in groups {
        return GroupNotFound;
      }
      if parent.Some? && parent.value !in groups {
        return ForeignKeyError;
      }
      groups := groups[g := Group(parent)];
      r := Ok;
    }

    /** The row side of an upload. */
    method Attach(a: Id, caller: Id, post: Option<Id>) returns (r: Outcome)
      modifies this`attachments
      ensures (Snapshot(), r) == DoAttach(old(Snapshot()), a, caller, post)
      ensures r == if post.None? || post.value in posts then Ok else PostNotFound
      ensures attachments == if r == Ok then old(attachments)[a := Attachment(caller, post)] else old(attachments)
    {
      if post.Some? && post.value !in posts {
        return PostNotFound;
      }
      attachments := attachments[a := Attachment(caller, post)];
      r := Ok;
    }

    /** The row side of a deletion. */
    method Detach(a: Id, caller: Id, roles: seq<string>) returns (r: Outcome)
      modifies this`attachments
      ensures (Snapshot(), r) == DoDetach(old(Snapshot()), a, caller, roles)
      ensures r == Ok <==>
        a in old(attachments) && (old(attachments)[a].owner == caller || "admin" in roles || "moderator" in roles)
      ensures r == AttachmentNotFound <==> a !in old(attachments)
      ensures attachments == if r == Ok then old(attachments) - {a} else old(attachments)
    {
      if a !in attachments {
        return AttachmentNotFound;
      }
      if attachments[a].owner != caller && !Moderates(roles) {
        return Forbidden;
      }
      attachments := attachments - {a};
      r := Ok;
    }
  }
}
