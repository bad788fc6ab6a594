/** Groups, threads, posts and attachments: the tables, the statements on them
    with their cascades, and the service calls, each run without interruption. */
module Forum {
  import opened Options
  import opened Text

  type Id = nat

  const NIL: Id := 0
  const ROLE_ADMIN := "admin"
  const ROLE_MODERATOR := "moderator"
  const MAX_TITLE := 200
  const MAX_BODY := 50000

  datatype Group = Group(parent: Option<Id>)

  datatype Thread = Thread(
    group: Id, author: Id, title: string, pinned: bool, locked: bool, views: int,
    postCount: int, lastPostAt: Option<int>)

  datatype Post = Post(thread: Id, author: Id, body: string, editedBy: Option<Id>, createdAt: int)

  datatype Attachment = Attachment(owner: Id, post: Option<Id>)

  datatype Tables = Tables(
    groups: map<Id, Group>, threads: map<Id, Thread>,
    posts: map<Id, Post>, attachments: map<Id, Attachment>)

  datatype Outcome =
    | Ok
    | GroupNotFound | ThreadNotFound | PostNotFound | AttachmentNotFound
    | Forbidden | InvalidInput | ThreadLocked | NotEmpty
    | ForeignKeyError

  // ------------------------------------------------------------- input checks

  predicate ValidTitle(title: string) {
    0 < |TrimSpace(title)| <= MAX_TITLE
  }

  predicate ValidBody(body: string) {
    0 < |TrimSpace(body)| <= MAX_BODY
  }

  predicate Moderates(roles: seq<string>) {
    ROLE_ADMIN in roles || ROLE_MODERATOR in roles
  }

  // ---------------------------------------------------- the posts of a thread

  function PostsIn(posts: map<Id, Post>, th: Id): set<Id> {
    set p | p in posts && posts[p].thread == th
  }

  /** m is max(created_at) over ids, NULL when there is none. */
  ghost predicate IsLatest(posts: map<Id, Post>, ids: set<Id>, m: Option<int>) {
    && (forall p :: p in ids && p in posts ==> m.Some? && posts[p].createdAt <= m.value)
    && (m.Some? ==> exists p :: p in ids && p in posts && posts[p].createdAt == m.value)
  }

  function Later(m: Option<int>, at: int): Option<int> {
    if m.None? || m.value < at then Some(at) else m
  }

  lemma LatestAdd(posts: map<Id, Post>, ids: set<Id>, m: Option<int>, p: Id)
    requires IsLatest(posts, ids, m) && p in posts
    ensures IsLatest(posts, ids + {p}, Later(m, posts[p].createdAt))
  {
    if m.Some? {
      var q :| q in ids && q in posts && posts[q].createdAt == m.value;
      assert q in ids + {p};
    }
    assert p in ids + {p};
  }

  lemma {:induction false} LatestExists(posts: map<Id, Post>, ids: set<Id>)
    requires ids <= posts.Keys
    ensures exists m :: IsLatest(posts, ids, m)
  {
    if ids == {} {
      assert IsLatest(posts, ids, None);
    } else {
      var p :| p in ids;
      LatestExists(posts, ids - {p});
      var m :| IsLatest(posts, ids - {p}, m);
      LatestAdd(posts, ids - {p}, m, p);
      assert ids - {p} + {p} == ids;
    }
  }

  /** IsLatest leaves no choice. */
  lemma LatestIsUnique(posts: map<Id, Post>, ids: set<Id>, m: Option<int>, n: Option<int>)
    requires IsLatest(posts, ids, m) && IsLatest(posts, ids, n)
    ensures m == n && (ids !! posts.Keys <==> m == None)
  {
    if m.Some? {
      var p :| p in ids && p in posts && posts[p].createdAt == m.value;
    }
    if n.Some? {
      var q :| q in ids && q in posts && posts[q].createdAt == n.value;
    }
  }

  /** SELECT max(created_at) */
  ghost function Latest(posts: map<Id, Post>, ids: set<Id>): (m: Option<int>)
    requires ids <= posts.Keys
    ensures IsLatest(posts, ids, m)
  {
    LatestExists(posts, ids);
    var m :| IsLatest(posts, ids, m);
    m
  }

  // ----------------------------------------------------------- the statements

  function ThreadInserted(t: Tables, th: Id, g: Id, author: Id, title: string): Tables {
    t.(threads := t.threads[th := Thread(g, author, title, false, false, 0, 0, None)])
  }

  function PostInserted(t: Tables, p: Id, th: Id, author: Id, body: string, now: int): Tables {
    t.(posts := t.posts[p := Post(th, author, body, None, now)])
  }

  function Bumped(t: Tables, th: Id, at: int): Tables {
    if th !in t.threads then t
    else
      var row := t.threads[th];
      t.(threads := t.threads[th := row.(postCount := row.postCount + 1, lastPostAt := Some(at))])
  }

  ghost function Recalculated(t: Tables, th: Id): Tables {
    if th !in t.threads then t
    else
      var ids := PostsIn(t.posts, th);
      t.(threads := t.threads[th := t.threads[th].(postCount := |ids|, lastPostAt := Latest(t.posts, ids))])
  }

  /** ON DELETE SET NULL of attachments.post_id */
  function Detached(attachments: map<Id, Attachment>, gone: set<Id>): map<Id, Attachment> {
    map a | a in attachments ::
      if attachments[a].post.Some? && attachments[a].post.value in gone
      then attachments[a].(post := None) else attachments[a]
  }

  function PostsDeleted(t: Tables, gone: set<Id>): Tables {
    t.(posts := t.posts - gone, attachments := Detached(t.attachments, gone))
  }

  /** Deleting threads cascades to their posts. */
  function ThreadsDeleted(t: Tables, gone: set<Id>): Tables {
    var posts := set p | p in t.posts && t.posts[p].thread in gone;
    Tables(t.groups, t.threads - gone, t.posts - posts, Detached(t.attachments, posts))
  }

  /** Deleting a group orphans its children and cascades to its threads. */
  function GroupDeleted(t: Tables, g: Id): Tables {
    var groups := map h | h in t.groups && h != g ::
      if t.groups[h].parent == Some(g) then Group(None) else t.groups[h];
    var threads := set th | th in t.threads && t.threads[th].group == g;
    ThreadsDeleted(t.(groups := groups), threads)
  }

  // --------------------------------------------------------- the service calls

  datatype Op =
    | CreateGroup(g: Id, parent: Option<Id>)
    | UpdateGroup(g: Id, parent: Option<Id>)
    | DeleteGroup(g: Id)
    | CreateThread(th: Id, g: Id, p: Id, caller: Id, title: string, body: string)
    | GetThread(th: Id)
    | UpdateThread(th: Id, newTitle: Option<string>, pinned: Option<bool>, locked: Option<bool>,
                   caller: Id, roles: seq<string>)
    | DeleteThread(th: Id, caller: Id, roles: seq<string>)
    | CreatePost(p: Id, th: Id, caller: Id, body: string)
    | UpdatePost(p: Id, caller: Id, body: string)
    | DeletePost(p: Id, caller: Id, roles: seq<string>)
    | Attach(a: Id, caller: Id, post: Option<Id>)
    | Detach(a: Id, caller: Id, roles: seq<string>)

  predicate ValidParent(t: Tables, g: Id, parent: Option<Id>) {
    parent.Some? ==> parent.value in t.groups || parent.value == g
  }

  function DoCreateGroup(t: Tables, g: Id, parent: Option<Id>): (Tables, Outcome) {
    if parent == Some(NIL) then (t, InvalidInput)
    else if !ValidParent(t, g, parent) then (t, ForeignKeyError)
    else (t.(groups := t.groups[g := Group(parent)]), Ok)
  }

  function DoUpdateGroup(t: Tables, g: Id, parent: Option<Id>): (Tables, Outcome) {
    if parent == Some(NIL) then (t, InvalidInput)
    else if g !in t.groups then (t, GroupNotFound)
    else if !ValidParent(t, g, parent) then (t, ForeignKeyError)
    else (t.(groups := t.groups[g := Group(parent)]), Ok)
  }

  function DoDeleteGroup(t: Tables, g: Id): (Tables, Outcome) {
    if g !in t.groups then (t, GroupNotFound)
    else if exists th :: th in t.threads && t.threads[th].group == g then (t, NotEmpty)
    else (GroupDeleted(t, g), Ok)
  }

  function DoCreateThread(
    t: Tables, th: Id, g: Id, p: Id, caller: Id, title: string, body: string, now: int): (Tables, Outcome)
  {
    if g !in t.groups then (t, GroupNotFound)
    else if !ValidTitle(title) || !ValidBody(body) then (t, InvalidInput)
    else (Bumped(PostInserted(ThreadInserted(t, th, g, caller, title), p, th, caller, body, now), th, now), Ok)
  }

  function DoGetThread(t: Tables, th: Id): (Tables, Outcome) {
    if th !in t.threads then (t, ThreadNotFound)
    else (t.(threads := t.threads[th := t.threads[th].(views := t.threads[th].views + 1)]), Ok)
  }

  function DoUpdateThread(
    t: Tables, th: Id, newTitle: Option<string>, pinned: Option<bool>, locked: Option<bool>,
    caller: Id, roles: seq<string>): (Tables, Outcome)
  {
    if th !in t.threads then (t, ThreadNotFound)
    else
      var row := t.threads[th];
      if row.author != caller && !Moderates(roles) then (t, Forbidden)
      else if newTitle.Some? && row.author != caller then (t, Forbidden)
      else if newTitle.Some? && !ValidTitle(newTitle.value) then (t, InvalidInput)
      else
        var updated := row.(
          title := if newTitle.Some? then newTitle.value else row.title,
          pinned := if Moderates(roles) && pinned.Some? then pinned.value else row.pinned,
          locked := if Moderates(roles) && locked.Some? then locked.value else row.locked);
        (t.(threads := t.threads[th := updated]), Ok)
  }

  function DoDeleteThread(t: Tables, th: Id, caller: Id, roles: seq<string>): (Tables, Outcome) {
    if th !in t.threads then (t, ThreadNotFound)
    else if t.threads[th].author != caller && !Moderates(roles) then (t, Forbidden)
    else (ThreadsDeleted(t, {th}), Ok)
  }

  function DoCreatePost(t: Tables, p: Id, th: Id, caller: Id, body: string, now: int): (Tables, Outcome) {
    if th !in t.threads then (t, ThreadNotFound)
    else if t.threads[th].locked then (t, ThreadLocked)
    else if !ValidBody(body) then (t, InvalidInput)
    else (Bumped(PostInserted(t, p, th, caller, body, now), th, now), Ok)
  }

  function DoUpdatePost(t: Tables, p: Id, caller: Id, body: string): (Tables, Outcome) {
    if p !in t.posts then (t, PostNotFound)
    else if t.posts[p].author != caller then (t, Forbidden)
    else if !ValidBody(body) then (t, InvalidInput)
    else (t.(posts := t.posts[p := t.posts[p].(body := body, editedBy := Some(caller))]), Ok)
  }

  ghost function DoDeletePost(t: Tables, p: Id, caller: Id, roles: seq<string>): (Tables, Outcome) {
    if p !in t.posts then (t, PostNotFound)
    else if t.posts[p].author != caller && !Moderates(roles) then (t, Forbidden)
    else (Recalculated(PostsDeleted(t, {p}), t.posts[p].thread), Ok)
  }

  function DoAttach(t: Tables, a: Id, caller: Id, post: Option<Id>): (Tables, Outcome) {
    if post.Some? && post.value !in t.posts then (t, PostNotFound)
    else (t.(attachments := t.attachments[a := Attachment(caller, post)]), Ok)
  }

  function DoDetach(t: Tables, a: Id, caller: Id, roles: seq<string>): (Tables, Outcome) {
    if a !in t.attachments then (t, AttachmentNotFound)
    else if t.attachments[a].owner != caller && !Moderates(roles) then (t, Forbidden)
    else (t.(attachments := t.attachments - {a}), Ok)
  }

  ghost function Do(t: Tables, op: Op, now: int): (Tables, Outcome) {
    match op
    case CreateGroup(g, parent) => DoCreateGroup(t, g, parent)
    case UpdateGroup(g, parent) => DoUpdateGroup(t, g, parent)
    case DeleteGroup(g) => DoDeleteGroup(t, g)
    case CreateThread(th, g, p, caller, title, body) => DoCreateThread(t, th, g, p, caller, title, body, now)
    case GetThread(th) => DoGetThread(t, th)
    case UpdateThread(th, title, pinned, locked, caller, roles) =>
      DoUpdateThread(t, th, title, pinned, locked, caller, roles)
    case DeleteThread(th, caller, roles) => DoDeleteThread(t, th, caller, roles)
    case CreatePost(p, th, caller, body) => DoCreatePost(t, p, th, caller, body, now)
    case UpdatePost(p, caller, body) => DoUpdatePost(t, p, caller, body)
    case DeletePost(p, caller, roles) => DoDeletePost(t, p, caller, roles)
    case Attach(a, caller, post) => DoAttach(t, a, caller, post)
    case Detach(a, caller, roles) => DoDetach(t, a, caller, roles)
  }

  /** Primary keys are drawn by the database and do not collide. */
  predicate Fresh(t: Tables, op: Op) {
    match op
    case CreateGroup(g, _) => g !in t.groups && g != NIL
    case CreateThread(th, _, p, _, _, _) => th !in t.threads && p !in t.posts
    case CreatePost(p, _, _, _) => p !in t.posts
    case Attach(a, _, _) => a !in t.attachments
    case _ => true
  }
}
