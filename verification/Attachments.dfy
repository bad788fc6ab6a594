/** Attachments across two stores.

    An upload puts an object and then inserts a row; a deletion reads the row,
    removes the object and then deletes the row.  Each of these is one step of a
    call, any number of calls interleave, and any step may fail, with or without
    having taken effect. */
module Attachments {
  import opened Options
  import opened StorageKeys

  type Id = nat
  type CallId = nat

  const MAX_ATTACHMENT_SIZE := 20 * 1024 * 1024

  datatype Row = Row(owner: Id, post: Option<Id>, key: string)

  datatype Call =
    | UploadChecking(owner: Id, on: Id, ext: string)             // before posts.GetByID
    | UploadPutting(owner: Id, post: Option<Id>, ext: string)    // before s3.Upload
    | UploadInserting(owner: Id, post: Option<Id>, key: string)  // before INSERT
    | DeleteReading(a: Id, caller: Id, moderator: bool)          // before GetByID
    | DeleteRemoving(a: Id, key: string)                         // allowed, before s3.Remove
    | DeleteDropping(a: Id)                                      // before DELETE
    | Created(a: Id)
    | Deleted(a: Id)
    | Failed

  /** History of an attachment key: put by a call, or committed to a row. */
  datatype Fate = Put(upload: CallId) | Committed(a: Id)

  datatype State = State(
    objects: set<string>, rows: map<Id, Row>, posts: set<Id>, calls: map<CallId, Call>,
    avatars: set<string>,         // history: avatar keys ever put
    drawn: set<Uuid>,             // history: uuids used in keys
    fates: map<string, Fate>,     // history: attachment keys ever put
    keyOf: map<Id, string>,       // history: the key of every row ever inserted
    removed: set<Id>)             // history: attachments whose object a deletion removed

  datatype Action =
    | Upload(p: CallId, owner: Id, on: Option<Id>, ext: string, size: int)
    | Delete(p: CallId, a: Id, caller: Id, moderator: bool)
    | Step(p: CallId, id: Id, uuid: Uuid)             // id serves an INSERT, uuid a new key
    | Fail(p: CallId, id: Id, uuid: Uuid, lost: bool) // lost: it took effect all the same
    | PutAvatar(user: Uuid, uuid: Uuid, ext: string)
    | AddPost(post: Id)
    | DropPost(post: Id)

  function Init(): State {
    State({}, map[], {}, map[], {}, {}, map[], map[], {})
  }

  // ------------------------------------------------------------------- semantics

  predicate Running(call: Call) {
    !call.Created? && !call.Deleted? && !call.Failed?
  }

  /** Row ids and uuids are never drawn twice. */
  predicate Fresh(s: State, id: Id, uuid: Uuid) {
    id !in s.keyOf && uuid !in s.drawn
  }

  predicate Enabled(s: State, x: Action) {
    match x
    case Upload(p, _, _, _, _) => p !in s.calls
    case Delete(p, _, _, _) => p !in s.calls
    case Step(p, id, uuid) => p in s.calls && Running(s.calls[p]) && Fresh(s, id, uuid)
    case Fail(p, id, uuid, _) => p in s.calls && Running(s.calls[p]) && Fresh(s, id, uuid)
    case PutAvatar(_, uuid, _) => uuid !in s.drawn
    case _ => true
  }

  /** attachments.post_id REFERENCES posts */
  predicate ForeignKey(s: State, post: Option<Id>) {
    post.None? || post.value in s.posts
  }

  predicate MayDelete(row: Row, caller: Id, moderator: bool) {
    row.owner == caller || moderator
  }

  function UploadStart(owner: Id, on: Option<Id>, ext: string, size: int): Call {
    if size <= 0 || size > MAX_ATTACHMENT_SIZE then Failed
    else if on.Some? then UploadChecking(owner, on.value, ext)
    else UploadPutting(owner, None, ext)
  }

  function NextCall(s: State, call: Call, id: Id, uuid: Uuid): Call {
    match call
    case UploadChecking(o, post, e) => if post in s.posts then UploadPutting(o, Some(post), e) else Failed
    case UploadPutting(o, post, e) => UploadInserting(o, post, AttachmentKey(uuid, e))
    case UploadInserting(_, post, _) => if ForeignKey(s, post) then Created(id) else Failed
    case DeleteReading(a, c, m) =>
      if a in s.rows && MayDelete(s.rows[a], c, m) then DeleteRemoving(a, s.rows[a].key) else Failed
    case DeleteRemoving(a, _) => DeleteDropping(a)
    case DeleteDropping(a) => if a in s.rows then Deleted(a) else Failed
    case _ => call
  }

  function PutObject(s: State, p: CallId, key: string, uuid: Uuid): State {
    s.(objects := s.objects + {key}, drawn := s.drawn + {uuid}, fates := s.fates[key := Put(p)])
  }

  function InsertRow(s: State, id: Id, row: Row): State {
    s.(rows := s.rows[id := row], keyOf := s.keyOf[id := row.key], fates := s.fates[row.key := Committed(id)])
  }

  function Removed(s: State, a: Id, k: string): State {
    s.(objects := s.objects - {k}, removed := s.removed + {a})
  }

  function Effect(s: State, p: CallId, call: Call, id: Id, uuid: Uuid): State {
    match call
    case UploadPutting(_, _, e) => PutObject(s, p, AttachmentKey(uuid, e), uuid)
    case UploadInserting(o, post, k) => if ForeignKey(s, post) then InsertRow(s, id, Row(o, post, k)) else s
    case DeleteRemoving(a, k) => Removed(s, a, k)
    case DeleteDropping(a) => s.(rows := s.rows - {a})
    case _ => s
  }

  /** ON DELETE SET NULL */
  function Detached(rows: map<Id, Row>, post: Id): map<Id, Row> {
    map a | a in rows :: if rows[a].post == Some(post) then rows[a].(post := None) else rows[a]
  }

  function SetCall(s: State, p: CallId, call: Call): State {
    s.(calls := s.calls[p := call])
  }

  function Apply(s: State, x: Action): State
    requires Enabled(s, x)
  {
    match x
    case Upload(p, o, on, e, size) => SetCall(s, p, UploadStart(o, on, e, size))
    case Delete(p, a, c, m) => SetCall(s, p, DeleteReading(a, c, m))
    case Step(p, id, uuid) => SetCall(Effect(s, p, s.calls[p], id, uuid), p, NextCall(s, s.calls[p], id, uuid))
    case Fail(p, id, uuid, lost) => SetCall(if lost then Effect(s, p, s.calls[p], id, uuid) else s, p, Failed)
    case PutAvatar(user, uuid, e) =>
      var k := AvatarKey(user, uuid, e);
      s.(objects := s.objects + {k}, avatars := s.avatars + {k}, drawn := s.drawn + {uuid})
    case AddPost(post) => s.(posts := s.posts + {post})
    case DropPost(post) => s.(posts := s.posts - {post}, rows := Detached(s.rows, post))
  }

  predicate Feasible(s: State, schedule: seq<Action>)
    decreases schedule
  {
    schedule == [] || (Enabled(s, schedule[0]) && Feasible(Apply(s, schedule[0]), schedule[1..]))
  }

  function Exec(s: State, schedule: seq<Action>): State
    requires Feasible(s, schedule)
    decreases schedule
  {
    if schedule == [] then s else Exec(Apply(s, schedule[0]), schedule[1..])
  }

  // ------------------------------------------------------------------- invariants

  /** A new uuid makes a new key. */
  ghost predicate DrawnInv(s: State) {
    forall k | k in s.fates :: IsAttachmentKey(k) && UuidOf(k) in s.drawn
  }

  /** A key not committed to a row belongs to one upload, still to insert or failed,
      and its object is there. */
  ghost predicate PutInv(s: State) {
    forall k | k in s.fates && s.fates[k].Put? ::
      && k in s.objects
      && s.fates[k].upload in s.calls
      && var call := s.calls[s.fates[k].upload]; call.Failed? || (call.UploadInserting? && call.key == k)
  }

  ghost predicate HeldInv(s: State) {
    forall p | p in s.calls && s.calls[p].UploadInserting? ::
      s.calls[p].key in s.fates && s.fates[s.calls[p].key] == Put(p)
  }

  /** A committed key has its object exactly until a deletion removes it. */
  ghost predicate CommitInv(s: State) {
    && (forall a | a in s.keyOf ::
          && s.keyOf[a] in s.fates && s.fates[s.keyOf[a]] == Committed(a)
          && (s.keyOf[a] in s.objects <==> a !in s.removed))
    && (forall k | k in s.fates && s.fates[k].Committed? :: s.fates[k].a in s.keyOf && s.keyOf[s.fates[k].a] == k)
    && s.removed <= s.keyOf.Keys
  }

  /** A row disappears only after its object. */
  ghost predicate RowInv(s: State) {
    && (forall a | a in s.rows :: a in s.keyOf && s.rows[a].key == s.keyOf[a])
    && (forall a | a in s.keyOf && a !in s.rows :: a in s.removed)
  }

  ghost predicate DeleteInv(s: State) {
    forall p | p in s.calls :: DeletionKnows(s, s.calls[p])
  }

  ghost predicate DeletionKnows(s: State, call: Call) {
    match call
    case DeleteRemoving(a, k) => a in s.keyOf && s.keyOf[a] == k
    case DeleteDropping(a) => a in s.keyOf && a in s.removed
    case Deleted(a) => a in s.keyOf && a in s.removed && a !in s.rows
    case _ => true
  }

  /** Every object is an avatar or an attachment ever put, and avatars stay. */
  ghost predicate ObjectInv(s: State) {
    && (forall k | k in s.objects :: k in s.avatars || k in s.fates)
    && (forall k | k in s.avatars :: k in s.objects && !IsAttachmentKey(k))
  }

  ghost predicate Inv(s: State) {
    DrawnInv(s) && PutInv(s) && HeldInv(s) && CommitInv(s) && RowInv(s) && DeleteInv(s) && ObjectInv(s)
  }

  // --------------------------------------------------- every effect keeps them

  lemma NewKeyIsNew(s: State, uuid: Uuid, ext: string)
    requires DrawnInv(s) && uuid !in s.drawn
    ensures AttachmentKey(uuid, ext) !in s.fates
  {
    KeyHoldsUuid(uuid, ext);
  }

  lemma PutKeepsStores(s: State, p: CallId, key: string, uuid: Uuid)
    requires Inv(s) && key !in s.fates && IsAttachmentKey(key) && UuidOf(key) == uuid
    ensures var t := PutObject(s, p, key, uuid); DrawnInv(t) && CommitInv(t) && RowInv(t) && ObjectInv(t)
  {
  }

  lemma PutKeepsCalls(s: State, p: CallId, key: string, uuid: Uuid, next: Call)
    requires PutInv(s) && HeldInv(s) && DeleteInv(s) && key !in s.fates && p in s.calls && s.calls[p].UploadPutting?
    requires next.Failed? || (next.UploadInserting? && next.key == key)
    ensures var t := SetCall(PutObject(s, p, key, uuid), p, next); PutInv(t) && HeldInv(t) && DeleteInv(t)
  {
    var t := SetCall(PutObject(s, p, key, uuid), p, next);
    forall q | q in t.calls ensures DeletionKnows(t, t.calls[q]) {
      if q != p {
        assert DeletionKnows(s, s.calls[q]);
      }
    }
  }

  /** Puts an object for call p, which then holds its key or has failed. */
  lemma PutKeepsInv(s: State, p: CallId, uuid: Uuid, ext: string, next: Call)
    requires Inv(s) && uuid !in s.drawn && p in s.calls && s.calls[p].UploadPutting?
    requires next.Failed? || (next.UploadInserting? && next.key == AttachmentKey(uuid, ext))
    ensures Inv(SetCall(PutObject(s, p, AttachmentKey(uuid, ext), uuid), p, next))
  {
    NewKeyIsNew(s, uuid, ext);
    KeyHoldsUuid(uuid, ext);
    PutKeepsStores(s, p, AttachmentKey(uuid, ext), uuid);
    PutKeepsCalls(s, p, AttachmentKey(uuid, ext), uuid, next);
  }

  lemma InsertCommits(s: State, p: CallId, id: Id, row: Row)
    requires HeldInv(s) && PutInv(s) && CommitInv(s) && id !in s.keyOf && p in s.calls
    requires s.calls[p].UploadInserting? && s.calls[p].key == row.key
    ensures CommitInv(InsertRow(s, id, row))
  {
    assert s.fates[row.key] == Put(p);
  }

  lemma InsertKeepsCalls(s: State, p: CallId, id: Id, row: Row, next: Call)
    requires PutInv(s) && HeldInv(s) && DeleteInv(s) && id !in s.keyOf && p in s.calls
    requires s.calls[p].UploadInserting? && s.calls[p].key == row.key
    requires next.Failed? || next.Created?
    ensures var t := SetCall(InsertRow(s, id, row), p, next); PutInv(t) && HeldInv(t) && DeleteInv(t)
  {
    var t := SetCall(InsertRow(s, id, row), p, next);
    forall q | q in t.calls ensures DeletionKnows(t, t.calls[q]) {
      if q != p {
        assert DeletionKnows(s, s.calls[q]);
      }
    }
  }

  lemma InsertKeepsInv(s: State, p: CallId, id: Id, row: Row, next: Call)
    requires Inv(s) && id !in s.keyOf && p in s.calls
    requires s.calls[p].UploadInserting? && s.calls[p].key == row.key
    requires next.Failed? || next.Created?
    ensures Inv(SetCall(InsertRow(s, id, row), p, next))
  {
    InsertCommits(s, p, id, row);
    InsertKeepsCalls(s, p, id, row, next);
  }

  lemma RemoveKeepsStores(s: State, a: Id, k: string)
    requires Inv(s) && a in s.keyOf && s.keyOf[a] == k
    ensures var t := Removed(s, a, k); DrawnInv(t) && CommitInv(t) && RowInv(t) && ObjectInv(t)
  {
  }

  lemma RemoveKeepsCalls(s: State, p: CallId, a: Id, k: string, next: Call)
    requires Inv(s) && a in s.keyOf && s.keyOf[a] == k && p in s.calls && s.calls[p] == DeleteRemoving(a, k)
    requires next.Failed? || next == DeleteDropping(a)
    ensures var t := SetCall(Removed(s, a, k), p, next); PutInv(t) && HeldInv(t) && DeleteInv(t)
  {
    var t := SetCall(Removed(s, a, k), p, next);
    forall q | q in t.calls ensures DeletionKnows(t, t.calls[q]) {
      if q != p {
        assert DeletionKnows(s, s.calls[q]);
      }
    }
  }

  lemma RemoveKeepsInv(s: State, p: CallId, a: Id, k: string, next: Call)
    requires Inv(s) && p in s.calls && s.calls[p] == DeleteRemoving(a, k)
    requires next.Failed? || next == DeleteDropping(a)
    ensures Inv(SetCall(Removed(s, a, k), p, next))
  {
    assert DeletionKnows(s, s.calls[p]);
    RemoveKeepsStores(s, a, k);
    RemoveKeepsCalls(s, p, a, k, next);
  }

  lemma DropKeepsInv(s: State, p: CallId, a: Id, next: Call)
    requires Inv(s) && p in s.calls && s.calls[p] == DeleteDropping(a)
    requires next.Failed? || next == Deleted(a)
    ensures Inv(SetCall(s.(rows := s.rows - {a}), p, next))
  {
    assert DeletionKnows(s, s.calls[p]);
  }

  /** Steps of a call that change no store. */
  lemma TurnKeepsInv(s: State, p: CallId, next: Call)
    requires Inv(s) && !next.UploadInserting? && DeletionKnows(s, next)
    requires p in s.calls ==> !s.calls[p].UploadInserting? || next.Failed?
    requires forall k | k in s.fates && s.fates[k].Put? && s.fates[k].upload == p :: next.Failed?
    ensures Inv(SetCall(s, p, next))
  {
  }

  lemma DetachKeepsInv(s: State, posts: set<Id>, post: Id)
    requires Inv(s)
    ensures Inv(s.(posts := posts, rows := Detached(s.rows, post)))
  {
  }

  lemma AvatarKeepsInv(s: State, k: string, uuid: Uuid)
    requires Inv(s) && !IsAttachmentKey(k)
    ensures Inv(s.(objects := s.objects + {k}, avatars := s.avatars + {k}, drawn := s.drawn + {uuid}))
  {
  }

  lemma CallKeepsInv(s: State, p: CallId, id: Id, uuid: Uuid)
    requires Inv(s) && Enabled(s, Step(p, id, uuid))
    ensures Inv(Apply(s, Step(p, id, uuid)))
  {
    var call := s.calls[p];
    var next := NextCall(s, call, id, uuid);
    match call
    case UploadPutting(_, _, e) => PutKeepsInv(s, p, uuid, e, next);
    case UploadInserting(o, post, k) =>
      if ForeignKey(s, post) {
        InsertKeepsInv(s, p, id, Row(o, post, k), next);
      } else {
        TurnKeepsInv(s, p, Failed);
      }
    case DeleteRemoving(a, k) => RemoveKeepsInv(s, p, a, k, next);
    case DeleteDropping(a) => DropKeepsInv(s, p, a, next);
    case _ => TurnKeepsInv(s, p, next);
  }

  lemma FailKeepsInv(s: State, p: CallId, id: Id, uuid: Uuid, lost: bool)
    requires Inv(s) && Enabled(s, Fail(p, id, uuid, lost))
    ensures Inv(Apply(s, Fail(p, id, uuid, lost)))
  {
    if lost {
      match s.calls[p]
      case UploadPutting(_, _, e) => PutKeepsInv(s, p, uuid, e, Failed);
      case UploadInserting(o, post, k) =>
        if ForeignKey(s, post) {
          InsertKeepsInv(s, p, id, Row(o, post, k), Failed);
        } else {
          TurnKeepsInv(s, p, Failed);
        }
      case DeleteRemoving(a, k) => RemoveKeepsInv(s, p, a, k, Failed);
      case DeleteDropping(a) => DropKeepsInv(s, p, a, Failed);
      case _ => TurnKeepsInv(s, p, Failed);
    } else {
      TurnKeepsInv(s, p, Failed);
    }
  }

  lemma InvStep(s: State, x: Action)
    requires Inv(s) && Enabled(s, x)
    ensures Inv(Apply(s, x))
  {
    match x
    case Upload(p, o, on, e, size) => TurnKeepsInv(s, p, UploadStart(o, on, e, size));
    case Delete(p, a, c, m) => TurnKeepsInv(s, p, DeleteReading(a, c, m));
    case Step(p, id, uuid) => CallKeepsInv(s, p, id, uuid);
    case Fail(p, id, uuid, lost) => FailKeepsInv(s, p, id, uuid, lost);
    case PutAvatar(user, uuid, e) =>
      if IsAttachmentKey(AvatarKey(user, uuid, e)) {
        PrefixesDisjoint(user, uuid, e, AvatarKey(user, uuid, e));
      }
      AvatarKeepsInv(s, AvatarKey(user, uuid, e), uuid);
    case AddPost(post) =>
    case DropPost(post) => DetachKeepsInv(s, s.posts - {post}, post);
  }

  lemma {:induction false} InvExec(s: State, schedule: seq<Action>)
    requires Inv(s) && Feasible(s, schedule)
    ensures Inv(Exec(s, schedule))
    decreases schedule
  {
    if schedule != [] {
      InvStep(s, schedule[0]);
      InvExec(Apply(s, schedule[0]), schedule[1..]);
    }
  }

  ghost predicate Reachable(s: State) {
    exists schedule :: Feasible(Init(), schedule) && Exec(Init(), schedule) == s
  }

  lemma ReachableInv(s: State)
    requires Reachable(s)
    ensures Inv(s)
  {
    var schedule :| Feasible(Init(), schedule) && Exec(Init(), schedule) == s;
    InvExec(Init(), schedule);
  }

  // --------------------------------------------------------------------- theorems

  /** UNIQUE (storage_key) is never violated. */
  lemma KeysAreDistinct(s: State, a: Id, b: Id)
    requires Reachable(s) && a in s.rows && b in s.rows && a != b
    ensures s.rows[a].key != s.rows[b].key
  {
    ReachableInv(s);
  }

  /** A row without its object had a deletion pass its Remove step. */
  lemma DanglingRowWasBeingDeleted(s: State, a: Id)
    requires Reachable(s) && a in s.rows
    ensures s.rows[a].key !in s.objects <==> a in s.removed
  {
    ReachableInv(s);
  }

  /** An attachment object without a row comes from an upload that has not inserted
      its row: still to do so, or failed.  Deletions leave none behind. */
  lemma OrphansComeFromUploads(s: State, k: string)
    requires Reachable(s) && k in s.objects && k !in s.avatars
    requires forall a | a in s.rows :: s.rows[a].key != k
    ensures k in s.fates && s.fates[k].Put? && s.fates[k].upload in s.calls
    ensures var call := s.calls[s.fates[k].upload]; call.Failed? || (call.UploadInserting? && call.key == k)
  {
    ReachableInv(s);
    if s.fates[k].Committed? {
      assert false;
    }
  }

  /** Attachment traffic never removes an avatar. */
  lemma AvatarsStay(s: State, k: string)
    requires Reachable(s) && k in s.avatars
    ensures k in s.objects
  {
    ReachableInv(s);
  }

  /** attachments.post_id holds: deleting a post detaches its attachments. */
  ghost predicate PostsExist(s: State) {
    forall a | a in s.rows && s.rows[a].post.Some? :: s.rows[a].post.value in s.posts
  }

  lemma PostsExistStep(s: State, x: Action)
    requires PostsExist(s) && Enabled(s, x)
    ensures PostsExist(Apply(s, x))
  {
  }

  lemma {:induction false} PostsExistOverRuns(s: State, schedule: seq<Action>)
    requires PostsExist(s) && Feasible(s, schedule)
    ensures PostsExist(Exec(s, schedule))
    decreases schedule
  {
    if schedule != [] {
      PostsExistStep(s, schedule[0]);
      PostsExistOverRuns(Apply(s, schedule[0]), schedule[1..]);
    }
  }

  /** In every reachable state each attachment belongs to a post that is there, or to none. */
  lemma AttachedToPosts(s: State, a: Id)
    requires Reachable(s) && a in s.rows
    ensures s.rows[a].post.Some? ==> s.rows[a].post.value in s.posts
  {
    var schedule :| Feasible(Init(), schedule) && Exec(Init(), schedule) == s;
    PostsExistOverRuns(Init(), schedule);
  }

  /** The deletion of a post takes that post from its attachments, and nothing else. */
  lemma DetachingIs(s: State, post: Id, a: Id)
    requires a in s.rows
    ensures var t := Apply(s, DropPost(post));
      && t.rows.Keys == s.rows.Keys && t.objects == s.objects
      && t.rows[a] == if s.rows[a].post == Some(post) then Row(s.rows[a].owner, None, s.rows[a].key) else s.rows[a]
  {
  }

  lemma HistoryGrows(s: State, x: Action)
    requires Enabled(s, x)
    ensures forall a | a in s.keyOf :: a in Apply(s, x).keyOf && Apply(s, x).keyOf[a] == s.keyOf[a]
    ensures s.removed <= Apply(s, x).removed
    ensures forall p | p in s.calls && !Running(s.calls[p]) ::
      p in Apply(s, x).calls && Apply(s, x).calls[p] == s.calls[p]
  {
  }

  lemma {:induction false} HistoryGrowsOverRuns(s: State, schedule: seq<Action>, p: CallId, a: Id)
    requires Inv(s) && Feasible(s, schedule) && p in s.calls && s.calls[p] == Deleted(a) && a in s.keyOf
    ensures var t := Exec(s, schedule);
      p in t.calls && t.calls[p] == Deleted(a) && a in t.keyOf && t.keyOf[a] == s.keyOf[a]
    decreases schedule
  {
    if schedule != [] {
      HistoryGrows(s, schedule[0]);
      InvStep(s, schedule[0]);
      HistoryGrowsOverRuns(Apply(s, schedule[0]), schedule[1..], p, a);
    }
  }

  /** Once a deletion has reported success, row and object are gone for good. */
  lemma DeletedForever(s: State, p: CallId, a: Id, schedule: seq<Action>)
    requires Reachable(s) && p in s.calls && s.calls[p] == Deleted(a) && Feasible(s, schedule)
    ensures a in s.keyOf && a !in Exec(s, schedule).rows && s.keyOf[a] !in Exec(s, schedule).objects
  {
    ReachableInv(s);
    assert DeletionKnows(s, s.calls[p]);
    HistoryGrowsOverRuns(s, schedule, p, a);
    InvExec(s, schedule);
    var t := Exec(s, schedule);
    assert DeletionKnows(t, t.calls[p]);
  }

  lemma RunFirst(s: State, x: Action, rest: seq<Action>)
    requires Enabled(s, x) && Feasible(Apply(s, x), rest)
    ensures Feasible(s, [x] + rest) && Exec(s, [x] + rest) == Exec(Apply(s, x), rest)
  {
    assert ([x] + rest)[1..] == rest;
  }

  lemma RemoveThenDrop(s: State, p: CallId, a: Id, key: string, step: Action)
    requires step.Step? && step.p == p && Fresh(s, step.id, step.uuid)
    requires p in s.calls && s.calls[p] == DeleteRemoving(a, key) && a in s.rows
    ensures Feasible(s, [step, step])
    ensures var t := Exec(s, [step, step]);
      t.calls == s.calls[p := Deleted(a)] && t.rows == s.rows - {a} && t.objects == s.objects - {key}
  {
    var s1 := Apply(s, step);
    RunFirst(s1, step, []);
    RunFirst(s, step, [step] + []);
    assert [step] + ([step] + []) == [step, step];
  }

  /** A call gets past the check of DeleteAttachment exactly for the owner, or for a
      moderator, of a row that is there; it then goes for that row's object. */
  lemma OnlyOwnersDelete(s: State, step: Action)
    requires step.Step? && Enabled(s, step) && s.calls[step.p].DeleteReading?
    ensures var call, next := s.calls[step.p], Apply(s, step).calls[step.p];
      && (next.Failed? || next.DeleteRemoving?)
      && (next.DeleteRemoving? <==> call.a in s.rows && (s.rows[call.a].owner == call.caller || call.moderator))
      && (next.DeleteRemoving? ==> next.a == call.a && next.key == s.rows[call.a].key)
  {
  }

  /** A deletion removes anything only after that check. */
  lemma OnlyCheckedDeletionsRemove(s: State, x: Action)
    requires Enabled(s, x)
    ensures (exists k :: k in s.objects && k !in Apply(s, x).objects) ==>
      (x.Step? || x.Fail?) && s.calls[x.p].DeleteRemoving?
    ensures (exists a :: a in s.rows && a !in Apply(s, x).rows) ==>
      (x.Step? || x.Fail?) && s.calls[x.p].DeleteDropping?
  {
  }

  /** Two steps of one call, drawing different uuids. */
  predicate TwoSteps(s: State, p: CallId, step: Action, later: Action) {
    && step.Step? && later.Step? && step.p == later.p == p && step.uuid != later.uuid
    && Fresh(s, step.id, step.uuid) && Fresh(s, later.id, later.uuid)
  }

  /** What an upload that went well leaves. */
  ghost predicate Uploaded(s: State, t: State, p: CallId, row: Id, owner: Id, on: Option<Id>, key: string) {
    && t.calls == s.calls[p := Created(row)] && t.objects == s.objects + {key}
    && t.rows == s.rows[row := Row(owner, on, key)]
  }

  lemma PutThenInsert(s: State, p: CallId, owner: Id, post: Option<Id>, ext: string, step: Action, later: Action)
    requires TwoSteps(s, p, step, later) && p in s.calls && s.calls[p] == UploadPutting(owner, post, ext)
    requires post.None? || post.value in s.posts
    ensures Feasible(s, [step, later])
    ensures Uploaded(s, Exec(s, [step, later]), p, later.id, owner, post, "attachments/" + step.uuid + ext)
  {
    KeyHoldsUuid(step.uuid, ext);
    var s1 := Apply(s, step);
    RunFirst(s1, later, []);
    RunFirst(s, step, [later] + []);
    assert [step] + ([later] + []) == [step, later];
  }

  /** The same from the look at the post on. */
  lemma CheckThenUpload(s: State, p: CallId, owner: Id, post: Id, ext: string, step: Action, later: Action)
    returns (rest: seq<Action>)
    requires TwoSteps(s, p, step, later) && p in s.calls && s.calls[p] == UploadChecking(owner, post, ext)
    ensures Feasible(s, rest) && forall x | x in rest :: x == step || x == later
    ensures var t := Exec(s, rest);
      if post in s.posts then Uploaded(s, t, p, later.id, owner, Some(post), "attachments/" + step.uuid + ext)
      else t.calls == s.calls[p := Failed] && t.objects == s.objects && t.rows == s.rows
  {
    var s1 := Apply(s, step);
    if post in s.posts {
      PutThenInsert(s1, p, owner, Some(post), ext, step, later);
      RunFirst(s, step, [step, later]);
      rest := [step] + [step, later];
    } else {
      RunFirst(s, step, []);
      rest := [step] + [];
    }
  }

  /** An upload that nobody disturbs: refused for its size, or for a post that is not
      there; otherwise one object and one row of the uploader, under the same key. */
  lemma UploadAlone(
    s: State, p: CallId, owner: Id, on: Option<Id>, ext: string, size: int, step: Action, later: Action)
    returns (rest: seq<Action>)
    requires p !in s.calls && TwoSteps(s, p, step, later)
    ensures Feasible(s, [Upload(p, owner, on, ext, size)] + rest)
    ensures forall x | x in rest :: x == step || x == later
    ensures var t := Exec(s, [Upload(p, owner, on, ext, size)] + rest);
      if 0 < size <= 20 * 1024 * 1024 && (on.None? || on.value in s.posts)
      then Uploaded(s, t, p, later.id, owner, on, "attachments/" + step.uuid + ext)
      else t.calls == s.calls[p := Failed] && t.objects == s.objects && t.rows == s.rows
  {
    var x := Upload(p, owner, on, ext, size);
    var s1 := Apply(s, x);
    if size <= 0 || size > 20 * 1024 * 1024 {
      rest := [];
    } else if on.None? {
      PutThenInsert(s1, p, owner, None, ext, step, later);
      rest := [step, later];
    } else {
      rest := CheckThenUpload(s1, p, owner, on.value, ext, step, later);
    }
    RunFirst(s, x, rest);
  }

  /** A deletion run again, whatever the earlier attempts left of the object, ends
      with row and object both gone.  Its steps draw neither the id nor the uuid. */
  lemma RetryRemovesBoth(s: State, p: CallId, a: Id, caller: Id, moderator: bool, step: Action)
    requires p !in s.calls && step.Step? && step.p == p && Fresh(s, step.id, step.uuid)
    requires a in s.rows && MayDelete(s.rows[a], caller, moderator)
    ensures var schedule := [Delete(p, a, caller, moderator), step, step, step];
      && Feasible(s, schedule)
      && Exec(s, schedule).calls == s.calls[p := Deleted(a)]
      && Exec(s, schedule).rows == s.rows - {a}
      && Exec(s, schedule).objects == s.objects - {s.rows[a].key}
  {
    var x := Delete(p, a, caller, moderator);
    var s1 := Apply(s, x);
    var s2 := Apply(s1, step);
    RemoveThenDrop(s2, p, a, s.rows[a].key, step);
    RunFirst(s1, step, [step, step]);
    RunFirst(s, x, [step] + [step, step]);
    assert [x] + ([step] + [step, step]) == [x, step, step, step];
  }
}
