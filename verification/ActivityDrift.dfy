/** The time of a thread's last activity when replies and deletions interleave
    statement by statement.

    A reply inserts its post and then writes that post's creation time; a deletion
    removes its post and then writes the maximum over the posts.  Whichever write
    comes last decides, and it may be late. */
module ActivityDrift {
  import opened Options

  type ThreadId = nat
  type PostId = nat
  type CallId = nat

  datatype Post = Post(thread: ThreadId, at: int)

  datatype Call =
    | Replying(th: ThreadId)                       // thread read, before INSERT
    | Bumping(th: ThreadId, p: PostId, at: int)    // post inserted, before BumpPost
    | Deleting(p: PostId, th: ThreadId)            // post read, before DELETE
    | Recalculating(th: ThreadId)                  // post deleted, before RecalcStats
    | Ended

  type Times = map<PostId, int>

  /** History: how the last write of last_post_at found the thread's posts. */
  datatype Write =
    | Recounted   // the maximum was computed from them
    | OnTime      // a bump, of the newest one
    | Overtaken   // a bump, when there was a newer one
    | Orphaned    // a bump, when all of them were older: its post was gone

  datatype State = State(
    last: map<ThreadId, Option<int>>, posts: map<PostId, Post>, calls: map<CallId, Call>, now: int,
    seen: map<ThreadId, Times>, how: map<ThreadId, Write>,  // history: the posts at the last write
    drawn: set<PostId>)                                     // history: post ids ever used

  datatype Action =
    | OpenThread(th: ThreadId, p: PostId)   // one transaction: thread, first post, time
    | DropThread(th: ThreadId)              // cascades to the posts
    | StartReply(c: CallId, th: ThreadId)
    | StartDelete(c: CallId, p: PostId)
    | Step(c: CallId, id: PostId)           // the call's next statement; id serves an INSERT
    | Tick(d: nat)

  function Init(): State {
    State(map[], map[], map[], 0, map[], map[], {})
  }

  predicate Enabled(s: State, a: Action) {
    match a
    case OpenThread(th, p) => th !in s.seen && p !in s.drawn
    case StartReply(c, th) => c !in s.calls && th in s.last
    case StartDelete(c, p) => c !in s.calls && p in s.posts
    case Step(c, id) => c in s.calls && !s.calls[c].Ended? && id !in s.drawn
    case _ => true
  }

  function TimesOf(posts: map<PostId, Post>, th: ThreadId): Times {
    map p | p in posts && posts[p].thread == th :: posts[p].at
  }

  /** m is the maximum of the times, NULL when there is none. */
  ghost predicate IsMax(times: Times, m: Option<int>) {
    && (forall p | p in times :: m.Some? && times[p] <= m.value)
    && (m.Some? ==> exists p :: p in times && times[p] == m.value)
  }

  ghost predicate SomeNewer(times: Times, at: int) {
    exists p :: p in times && times[p] > at
  }

  ghost predicate SomeAt(times: Times, at: int) {
    exists p :: p in times && times[p] == at
  }

  ghost function Verdict(times: Times, at: int): Write {
    if SomeNewer(times, at) then Overtaken else if SomeAt(times, at) then OnTime else Orphaned
  }

  lemma {:induction false} MaxExists(times: Times)
    ensures exists m :: IsMax(times, m)
  {
    if times == map[] {
      assert IsMax(times, None);
    } else {
      var p :| p in times;
      var rest := times - {p};
      MaxExists(rest);
      var m :| IsMax(rest, m);
      var larger := if m.None? || m.value < times[p] then Some(times[p]) else m;
      if m.Some? {
        var q :| q in rest && rest[q] == m.value;
        assert times[q] == m.value;
      }
      assert forall q | q in times :: q == p || q in rest;
      assert IsMax(times, larger);
    }
  }

  ghost function Max(times: Times): (m: Option<int>)
    ensures IsMax(times, m)
  {
    MaxExists(times);
    var m :| IsMax(times, m);
    m
  }

  function NextCall(s: State, call: Call, id: PostId): Call {
    match call
    case Replying(th) => if th in s.last then Bumping(th, id, s.now) else Ended
    case Deleting(p, th) => if p in s.posts then Recalculating(th) else Ended
    case _ => Ended
  }

  /** last_post_at of th is written, history recording what the posts were. */
  function Written(s: State, th: ThreadId, value: Option<int>, how: Write): State {
    s.(last := s.last[th := value], seen := s.seen[th := TimesOf(s.posts, th)], how := s.how[th := how])
  }

  ghost function Statement(s: State, call: Call, id: PostId): State {
    match call
    case Replying(th) =>
      if th in s.last then s.(posts := s.posts[id := Post(th, s.now)], drawn := s.drawn + {id}) else s
    case Bumping(th, _, at) =>
      if th in s.last then Written(s, th, Some(at), Verdict(TimesOf(s.posts, th), at)) else s
    case Deleting(p, _) => s.(posts := s.posts - {p})
    case Recalculating(th) =>
      if th in s.last then Written(s, th, Max(TimesOf(s.posts, th)), Recounted) else s
    case Ended => s
  }

  ghost function Apply(s: State, a: Action): State
    requires Enabled(s, a)
  {
    match a
    case OpenThread(th, p) =>
      Written(s.(posts := s.posts[p := Post(th, s.now)], drawn := s.drawn + {p}), th, Some(s.now), OnTime)
    case DropThread(th) => s.(last := s.last - {th}, posts := s.posts - TimesOf(s.posts, th).Keys)
    case StartReply(c, th) => s.(calls := s.calls[c := Replying(th)])
    case StartDelete(c, p) => s.(calls := s.calls[c := Deleting(p, s.posts[p].thread)])
    case Step(c, id) =>
      Statement(s, s.calls[c], id).(calls := s.calls[c := NextCall(s, s.calls[c], id)])
    case Tick(d) => s.(now := s.now + d)
  }

  ghost predicate Feasible(s: State, schedule: seq<Action>)
    decreases schedule
  {
    schedule == [] || (Enabled(s, schedule[0]) && Feasible(Apply(s, schedule[0]), schedule[1..]))
  }

  ghost function Exec(s: State, schedule: seq<Action>): State
    requires Feasible(s, schedule)
    decreases schedule
  {
    if schedule == [] then s else Exec(Apply(s, schedule[0]), schedule[1..])
  }

  // -------------------------------------------------------------------- invariants

  /** What the kind of the last write says about the value it left. */
  ghost predicate WriteTells(times: Times, value: Option<int>, how: Write) {
    match how
    case Overtaken => value.Some? && SomeNewer(times, value.value)
    case Orphaned => value.Some? && forall p | p in times :: times[p] < value.value
    case _ => IsMax(times, value)
  }

  ghost predicate BumpDue(s: State, th: ThreadId, p: PostId) {
    exists c :: c in s.calls && s.calls[c].Bumping? && s.calls[c].th == th && s.calls[c].p == p
  }

  ghost predicate RecalcDue(s: State, th: ThreadId) {
    exists c :: c in s.calls && s.calls[c] == Recalculating(th)
  }

  /** A post of th that the last write did not see is owed a bump ... */
  ghost predicate NewOnesOwed(s: State, th: ThreadId)
    requires th in s.seen
  {
    forall p | p in s.posts && s.posts[p].thread == th ::
      (p in s.seen[th] && s.seen[th][p] == s.posts[p].at) || BumpDue(s, th, p)
  }

  /** ... and for one that it saw and that is gone, a recomputation is owed. */
  ghost predicate OldOnesOwed(s: State, th: ThreadId)
    requires th in s.seen
  {
    forall p | p in s.seen[th] :: (p in s.posts && s.posts[p].thread == th) || RecalcDue(s, th)
  }

  ghost predicate Good(s: State, th: ThreadId) {
    && th in s.seen && th in s.how
    && (th in s.last ==>
          WriteTells(s.seen[th], s.last[th], s.how[th]) && NewOnesOwed(s, th) && OldOnesOwed(s, th))
  }

  /** Ids are drawn once, and calls know their posts. */
  ghost predicate Known(s: State) {
    && s.last.Keys <= s.seen.Keys && s.posts.Keys <= s.drawn
    && (forall p | p in s.posts :: s.posts[p].thread in s.last)
    && (forall th, p | th in s.seen && p in s.seen[th] :: p in s.drawn)
    && (forall c | c in s.calls && s.calls[c].Deleting? ::
          s.calls[c].p in s.drawn && (s.calls[c].p in s.posts ==> s.posts[s.calls[c].p].thread == s.calls[c].th))
    && (forall c | c in s.calls && s.calls[c].Bumping? ::
          s.calls[c].p in s.drawn
          && (s.calls[c].p in s.posts ==> s.posts[s.calls[c].p] == Post(s.calls[c].th, s.calls[c].at)))
  }

  ghost predicate Inv(s: State) {
    Known(s) && forall th | th in s.seen :: Good(s, th)
  }

  // ------------------------------------------------------------------ preservation

  lemma KnownInsert(s: State, t: State, c: CallId, to: ThreadId, id: PostId)
    requires Known(s) && c in s.calls && id !in s.drawn && to in s.last && t.last == s.last && t.seen == s.seen
    requires t.posts == s.posts[id := Post(to, s.now)] && t.drawn == s.drawn + {id}
    requires t.calls == s.calls[c := Bumping(to, id, s.now)]
    ensures Known(t)
  {
  }

  /** Every other statement removes posts at most. */
  lemma KnownMove(s: State, t: State, c: CallId, next: Call)
    requires Known(s) && t.calls == s.calls[c := next] && !next.Bumping? && !next.Deleting? && t.drawn == s.drawn
    requires t.last.Keys == s.last.Keys && t.last.Keys <= t.seen.Keys
    requires forall p | p in t.posts :: p in s.posts && t.posts[p] == s.posts[p]
    requires forall th, p | th in t.seen && p in t.seen[th] :: p in s.drawn
    ensures Known(t)
  {
  }

  lemma KnownCall(s: State, c: CallId, id: PostId)
    requires Known(s) && Enabled(s, Step(c, id))
    ensures Known(Apply(s, Step(c, id)))
  {
    var t := Apply(s, Step(c, id));
    if s.calls[c].Replying? && s.calls[c].th in s.last {
      KnownInsert(s, t, c, s.calls[c].th, id);
    } else {
      KnownMove(s, t, c, NextCall(s, s.calls[c], id));
    }
  }

  lemma KnownStep(s: State, a: Action)
    requires Known(s) && Enabled(s, a)
    ensures Known(Apply(s, a))
  {
    if a.Step? {
      KnownCall(s, a.c, a.id);
    } else if a.OpenThread? {
      KnownOpen(s, a);
    }
  }

  lemma KnownOpen(s: State, a: Action)
    requires Known(s) && Enabled(s, a) && a.OpenThread?
    ensures Known(Apply(s, a))
  {
  }

  lemma VerdictTells(times: Times, at: int)
    ensures WriteTells(times, Some(at), Verdict(times, at))
  {
  }

  lemma TimesAreSeen(s: State, th: ThreadId)
    requires th in s.seen && s.seen[th] == TimesOf(s.posts, th)
    ensures NewOnesOwed(s, th) && OldOnesOwed(s, th)
  {
  }

  /** The call c moves on to next; nothing else changes what th is owed. */
  lemma OwedFrame(s: State, t: State, c: CallId, next: Call, th: ThreadId)
    requires Good(s, th) && t.calls == s.calls[c := next] && t.last == s.last && t.seen == s.seen && t.how == s.how
    requires c in s.calls ==> s.calls[c] != Recalculating(th) && !(s.calls[c].Bumping? && s.calls[c].th == th)
    requires forall p | p in t.posts && t.posts[p].thread == th :: p in s.posts && t.posts[p] == s.posts[p]
    requires forall p | p in s.posts && s.posts[p].thread == th && p !in t.posts :: next == Recalculating(th)
    requires forall p | p in s.posts && p in t.posts :: t.posts[p] == s.posts[p]
    ensures Good(t, th)
  {
    if th in t.last {
      forall p | p in t.posts && t.posts[p].thread == th
        ensures (p in t.seen[th] && t.seen[th][p] == t.posts[p].at) || BumpDue(t, th, p)
      {
        if BumpDue(s, th, p) {
          var d :| d in s.calls && s.calls[d].Bumping? && s.calls[d].th == th && s.calls[d].p == p;
          assert t.calls[d] == s.calls[d];
        }
      }
      forall p | p in t.seen[th]
        ensures (p in t.posts && t.posts[p].thread == th) || RecalcDue(t, th)
      {
        if RecalcDue(s, th) {
          var d :| d in s.calls && s.calls[d] == Recalculating(th);
          assert t.calls[d] == s.calls[d];
        } else if p !in t.posts {
          assert t.calls[c] == Recalculating(th);
        }
      }
    }
  }

  /** A reply's INSERT: the new post is owed its bump. */
  lemma InsertStep(s: State, t: State, c: CallId, to: ThreadId, id: PostId, th: ThreadId)
    requires Known(s) && Good(s, th) && c in s.calls && s.calls[c] == Replying(to) && id !in s.drawn
    requires t.last == s.last && t.seen == s.seen && t.how == s.how
    requires t.posts == s.posts[id := Post(to, s.now)] && t.calls == s.calls[c := Bumping(to, id, s.now)]
    ensures Good(t, th)
  {
    if th in t.last {
      forall p | p in t.posts && t.posts[p].thread == th
        ensures (p in t.seen[th] && t.seen[th][p] == t.posts[p].at) || BumpDue(t, th, p)
      {
        if p == id {
          assert t.calls[c].Bumping?;
        } else if BumpDue(s, th, p) {
          var d :| d in s.calls && s.calls[d].Bumping? && s.calls[d].th == th && s.calls[d].p == p;
          assert t.calls[d] == s.calls[d];
        }
      }
      if RecalcDue(s, th) {
        var d :| d in s.calls && s.calls[d] == Recalculating(th);
        assert t.calls[d] == s.calls[d];
      }
    }
  }

  /** A write of th settles th; other threads are not concerned. */
  lemma WriteStep(s: State, t: State, c: CallId, of: ThreadId, value: Option<int>, how: Write, th: ThreadId)
    requires Good(s, th) && c in s.calls && of in s.last
    requires s.calls[c] == Recalculating(of) || (s.calls[c].Bumping? && s.calls[c].th == of)
    requires WriteTells(TimesOf(s.posts, of), value, how)
    requires t == Written(s, of, value, how).(calls := s.calls[c := Ended])
    ensures Good(t, th)
  {
    if th == of {
      TimesAreSeen(t, th);
    } else {
      var u := s.(calls := s.calls[c := Ended]);
      OwedFrame(s, u, c, Ended, th);
      SameDebts(u, t, th);
    }
  }

  lemma SameDebts(s: State, t: State, th: ThreadId)
    requires Good(s, th) && t.posts == s.posts && t.calls == s.calls
    requires (th in t.last <==> th in s.last) && (th in s.last ==> t.last[th] == s.last[th])
    requires th in t.seen && t.seen[th] == s.seen[th] && th in t.how && t.how[th] == s.how[th]
    ensures Good(t, th)
  {
    if th in t.last {
      assert forall p :: BumpDue(t, th, p) <==> BumpDue(s, th, p);
      assert RecalcDue(t, th) <==> RecalcDue(s, th);
    }
  }

  lemma CallStep(s: State, c: CallId, id: PostId, th: ThreadId)
    requires Known(s) && Enabled(s, Step(c, id)) && Good(s, th)
    ensures Good(Apply(s, Step(c, id)), th)
  {
    var t := Apply(s, Step(c, id));
    match s.calls[c]
    case Replying(to) =>
      if to in s.last { InsertStep(s, t, c, to, id, th); } else { OwedFrame(s, t, c, Ended, th); }
    case Bumping(of, _, at) =>
      if of in s.last {
        VerdictTells(TimesOf(s.posts, of), at);
        WriteStep(s, t, c, of, Some(at), Verdict(TimesOf(s.posts, of), at), th);
      } else if th != of {
        OwedFrame(s, t, c, Ended, th);
      }
    case Deleting(p, of) => OwedFrame(s, t, c, NextCall(s, s.calls[c], id), th);
    case Recalculating(of) =>
      if of in s.last {
        WriteStep(s, t, c, of, Max(TimesOf(s.posts, of)), Recounted, th);
      } else if th != of {
        OwedFrame(s, t, c, Ended, th);
      }
  }

  lemma OpenStep(s: State, a: Action, th: ThreadId)
    requires Known(s) && Enabled(s, a) && a.OpenThread? && (th == a.th || Good(s, th))
    ensures Good(Apply(s, a), th)
  {
    var t := Apply(s, a);
    if th == a.th {
      var times := TimesOf(t.posts, th);
      assert a.p in times && times[a.p] == s.now;
      assert forall p | p in times :: p == a.p;
      TimesAreSeen(t, th);
    } else if th in t.last {
      assert forall p :: BumpDue(t, th, p) <==> BumpDue(s, th, p);
      assert RecalcDue(t, th) <==> RecalcDue(s, th);
    }
  }

  lemma DropStep(s: State, a: Action, th: ThreadId)
    requires Enabled(s, a) && a.DropThread? && Good(s, th)
    ensures Good(Apply(s, a), th)
  {
    var t := Apply(s, a);
    if th in t.last {
      assert forall p :: BumpDue(t, th, p) <==> BumpDue(s, th, p);
      assert RecalcDue(t, th) <==> RecalcDue(s, th);
    }
  }

  lemma InvStep(s: State, a: Action)
    requires Inv(s) && Enabled(s, a)
    ensures Inv(Apply(s, a))
  {
    KnownStep(s, a);
    var t := Apply(s, a);
    forall th | th in t.seen ensures Good(t, th) {
      match a
      case OpenThread(_, _) => OpenStep(s, a, th);
      case DropThread(_) => DropStep(s, a, th);
      case StartReply(c, to) => OwedFrame(s, t, c, Replying(to), th);
      case StartDelete(c, p) => OwedFrame(s, t, c, Deleting(p, s.posts[p].thread), th);
      case Step(c, id) => CallStep(s, c, id, th);
      case Tick(_) => SameDebts(s, t, th);
    }
  }

  lemma {:induction false} InvExec(s: State, schedule: seq<Action>)
    requires Inv(s) && Feasible(s, schedule)
    ensures Inv(Exec(s, schedule))
    decreases schedule
  {
    if schedule != [] {
      InvStep(s, schedule[0]);
      InvExec(Apply(s, schedule[0]), schedule[1..]);
    }
  }

  // ---------------------------------------------------------------------- theorems

  /** No call stands between the two statements of a reply or a deletion on th. */
  ghost predicate AtRest(s: State, th: ThreadId) {
    !RecalcDue(s, th) && forall p :: !BumpDue(s, th, p)
  }

  /** At rest the last write has seen the posts as they are. */
  lemma RestIsSeen(s: State, th: ThreadId)
    requires Good(s, th) && th in s.last && AtRest(s, th)
    ensures s.seen[th] == TimesOf(s.posts, th)
  {
    assert NewOnesOwed(s, th) && OldOnesOwed(s, th);
  }

  /** At rest last_post_at is the time of the newest post if and only if the last write
      was a recomputation or the bump of what was then the newest post.  After an
      overtaken bump it is too early; after the bump of a deleted post too late. */
  lemma ActivityAtRest(schedule: seq<Action>, th: ThreadId)
    requires Feasible(Init(), schedule) && th in Exec(Init(), schedule).last
    requires AtRest(Exec(Init(), schedule), th)
    ensures var s := Exec(Init(), schedule);
      var times := TimesOf(s.posts, th);
      && th in s.how
      && (IsMax(times, s.last[th]) <==> s.how[th].Recounted? || s.how[th].OnTime?)
      && (s.how[th].Overtaken? ==> s.last[th].Some? && SomeNewer(times, s.last[th].value))
      && (s.how[th].Orphaned? ==> s.last[th].Some? && forall p | p in times :: times[p] < s.last[th].value)
  {
    InvExec(Init(), schedule);
    var s := Exec(Init(), schedule);
    assert Good(s, th);
    RestIsSeen(s, th);
  }

  /** A bump is on time exactly if its post is still there, or another one of the same
      time, and none is newer; of a post that is there it is never orphaned. */
  lemma BumpIsOnTime(schedule: seq<Action>, c: CallId, id: PostId)
    requires Feasible(Init(), schedule) && Enabled(Exec(Init(), schedule), Step(c, id))
    requires Exec(Init(), schedule).calls[c].Bumping?
    requires Exec(Init(), schedule).calls[c].th in Exec(Init(), schedule).last
    ensures var s := Exec(Init(), schedule);
      var call := s.calls[c];
      var times := TimesOf(s.posts, call.th);
      var t := Apply(s, Step(c, id));
      && t.last[call.th] == Some(call.at)
      && (t.how[call.th].OnTime? <==> SomeAt(times, call.at) && !SomeNewer(times, call.at))
      && (call.p in s.posts ==> !t.how[call.th].Orphaned?)
  {
    InvExec(Init(), schedule);
    var s := Exec(Init(), schedule);
    var call := s.calls[c];
    if call.p in s.posts {
      var times := TimesOf(s.posts, call.th);
      assert call.p in times && times[call.p] == call.at;
    }
  }

  // --------------------------------------------------------------------- witnesses

  lemma {:induction false} ExecConcat(s: State, first: seq<Action>, second: seq<Action>)
    requires Feasible(s, first) && Feasible(Exec(s, first), second)
    ensures Feasible(s, first + second) && Exec(s, first + second) == Exec(Exec(s, first), second)
    decreases first
  {
    if first == [] {
      assert first + second == second;
    } else {
      assert (first + second)[1..] == first[1..] + second;
      ExecConcat(Apply(s, first[0]), first[1..], second);
    }
  }

  lemma ExecCons(s: State, a: Action, rest: seq<Action>)
    requires Enabled(s, a) && Feasible(Apply(s, a), rest)
    ensures Feasible(s, [a] + rest) && Exec(s, [a] + rest) == Exec(Apply(s, a), rest)
  {
    assert ([a] + rest)[1..] == rest;
  }

  const OPENED := State(
    map[1 := Some(0)], map[10 := Post(1, 0)], map[], 0, map[1 := map[10 := 0]], map[1 := OnTime], {10})

  /** A thread opened at time 0, with one reply of time 0 not bumped yet ... */
  const ONE_REPLY := State(
    map[1 := Some(0)], map[10 := Post(1, 0), 11 := Post(1, 0)], map[1 := Bumping(1, 11, 0)], 0,
    map[1 := map[10 := 0]], map[1 := OnTime], {10, 11})

  /** ... and another one of time 5. */
  const TWO_REPLIES := State(
    map[1 := Some(0)], map[10 := Post(1, 0), 11 := Post(1, 0), 12 := Post(1, 5)],
    map[1 := Bumping(1, 11, 0), 2 := Bumping(1, 12, 5)], 5,
    map[1 := map[10 := 0]], map[1 := OnTime], {10, 11, 12})

  lemma OpenFirst()
    ensures Enabled(Init(), OpenThread(1, 10)) && Apply(Init(), OpenThread(1, 10)) == OPENED
  {
    var posts: map<PostId, Post> := map[10 := Post(1, 0)];
    assert TimesOf(posts, 1) == map[10 := 0];
  }

  lemma ReplyFirst()
    ensures Enabled(OPENED, StartReply(1, 1)) && Enabled(Apply(OPENED, StartReply(1, 1)), Step(1, 11))
    ensures Apply(Apply(OPENED, StartReply(1, 1)), Step(1, 11)) == ONE_REPLY
  {
  }

  lemma ReplyLater()
    ensures var s := Apply(ONE_REPLY, Tick(5));
      && Enabled(s, StartReply(2, 1)) && Enabled(Apply(s, StartReply(2, 1)), Step(2, 12))
      && Apply(Apply(s, StartReply(2, 1)), Step(2, 12)) == TWO_REPLIES
  {
  }

  lemma TwoReplies() returns (schedule: seq<Action>)
    ensures Feasible(Init(), schedule) && Exec(Init(), schedule) == TWO_REPLIES
  {
    OpenFirst();
    ReplyFirst();
    ReplyLater();
    var ticked := Apply(ONE_REPLY, Tick(5));
    ExecCons(Apply(ticked, StartReply(2, 1)), Step(2, 12), []);
    ExecCons(ticked, StartReply(2, 1), [Step(2, 12)] + []);
    var later := [StartReply(2, 1)] + ([Step(2, 12)] + []);
    ExecCons(ONE_REPLY, Tick(5), later);
    ExecCons(Apply(OPENED, StartReply(1, 1)), Step(1, 11), [Tick(5)] + later);
    ExecCons(OPENED, StartReply(1, 1), [Step(1, 11)] + ([Tick(5)] + later));
    ExecCons(Init(), OpenThread(1, 10), [StartReply(1, 1)] + ([Step(1, 11)] + ([Tick(5)] + later)));
    schedule := [OpenThread(1, 10)] + ([StartReply(1, 1)] + ([Step(1, 11)] + ([Tick(5)] + later)));
  }

  /** A bump, its verdict aside. */
  lemma BumpWrites(s: State, c: CallId, id: PostId)
    requires Enabled(s, Step(c, id)) && s.calls[c].Bumping? && s.calls[c].th in s.last
    ensures var t := Apply(s, Step(c, id));
      && t.last == s.last[s.calls[c].th := Some(s.calls[c].at)] && t.posts == s.posts
      && t.calls == s.calls[c := Ended] && t.drawn == s.drawn && t.now == s.now
  {
  }

  lemma TwoBumps(s: State, first: CallId, second: CallId)
    requires first in s.calls && s.calls[first].Bumping? && s.calls[first].th in s.last && 13 !in s.drawn
    requires second in s.calls && s.calls[second].Bumping? && s.calls[second].th in s.last && first != second
    ensures var rest := [Step(first, 13), Step(second, 13)];
      Feasible(s, rest)
      && Exec(s, rest).posts == s.posts && Exec(s, rest).calls == s.calls[first := Ended][second := Ended]
      && Exec(s, rest).last
         == s.last[s.calls[first].th := Some(s.calls[first].at)][s.calls[second].th := Some(s.calls[second].at)]
  {
    BumpWrites(s, first, 13);
    var t := Apply(s, Step(first, 13));
    BumpWrites(t, second, 13);
    ExecCons(t, Step(second, 13), []);
    ExecCons(s, Step(first, 13), [Step(second, 13)]);
    assert [Step(first, 13)] + [Step(second, 13)] == [Step(first, 13), Step(second, 13)];
    assert [Step(second, 13)] + [] == [Step(second, 13)];
  }

  lemma AllEnded(s: State, th: ThreadId)
    requires forall c | c in s.calls :: s.calls[c].Ended?
    ensures AtRest(s, th)
  {
  }

  /** What the crossing bumps of two replies leave. */
  lemma CrossFrom(s: State)
    requires s.last == map[1 := Some(0)] && 13 !in s.drawn
    requires s.calls == map[1 := Bumping(1, 11, 0), 2 := Bumping(1, 12, 5)]
    ensures var bumps := [Step(2, 13), Step(1, 13)];
      Feasible(s, bumps) && Exec(s, bumps).posts == s.posts
      && Exec(s, bumps).last == map[1 := Some(0)] && AtRest(Exec(s, bumps), 1)
  {
    TwoBumps(s, 2, 1);
    AllEnded(Exec(s, [Step(2, 13), Step(1, 13)]), 1);
  }

  /** The bumps of the two replies cross: at rest the thread looks idle since 0, though
      its newest post is of time 5. */
  lemma BumpsCross() returns (schedule: seq<Action>)
    ensures Feasible(Init(), schedule)
    ensures var s := Exec(Init(), schedule);
      AtRest(s, 1) && s.last == map[1 := Some(0)] && 12 in s.posts && s.posts[12] == Post(1, 5)
  {
    var first := TwoReplies();
    CrossFrom(TWO_REPLIES);
    ExecConcat(Init(), first, [Step(2, 13), Step(1, 13)]);
    schedule := first + [Step(2, 13), Step(1, 13)];
  }

  lemma RecountWrites(s: State, c: CallId, id: PostId, value: Option<int>)
    requires Enabled(s, Step(c, id)) && s.calls[c].Recalculating? && s.calls[c].th in s.last
    requires IsMax(TimesOf(s.posts, s.calls[c].th), value)
    ensures var t := Apply(s, Step(c, id));
      && t.last == s.last[s.calls[c].th := value] && t.posts == s.posts
      && t.calls == s.calls[c := Ended] && t.drawn == s.drawn
  {
    MaxIsUnique(TimesOf(s.posts, s.calls[c].th), Max(TimesOf(s.posts, s.calls[c].th)), value);
  }

  lemma MaxIsUnique(times: Times, m: Option<int>, n: Option<int>)
    requires IsMax(times, m) && IsMax(times, n)
    ensures m == n
  {
  }

  /** A post is deleted and the time recomputed by a call of its own. */
  lemma DeleteAndRecount(s: State, c: CallId, p: PostId, value: Option<int>) returns (rest: seq<Action>)
    requires c !in s.calls && p in s.posts && s.posts[p].thread in s.last && 13 !in s.drawn
    requires IsMax(TimesOf(s.posts - {p}, s.posts[p].thread), value)
    ensures Feasible(s, rest)
    ensures var t := Exec(s, rest);
      && t.posts == s.posts - {p} && t.last == s.last[s.posts[p].thread := value]
      && t.calls == s.calls[c := Ended] && t.drawn == s.drawn
  {
    var s1 := Apply(s, StartDelete(c, p));
    var s2 := Apply(s1, Step(c, 13));
    assert s2.calls[c] == Recalculating(s.posts[p].thread);
    RecountWrites(s2, c, 13, value);
    ExecCons(s2, Step(c, 13), []);
    ExecCons(s1, Step(c, 13), [Step(c, 13)] + []);
    ExecCons(s, StartDelete(c, p), [Step(c, 13)] + ([Step(c, 13)] + []));
    rest := [StartDelete(c, p)] + ([Step(c, 13)] + ([Step(c, 13)] + []));
  }

  /** The second reply is deleted and the time recomputed, before its bump. */
  lemma DeletedBeforeBump(s: State) returns (rest: seq<Action>)
    requires s.last == map[1 := Some(0)] && s.drawn == {10, 11, 12}
    requires s.posts == map[10 := Post(1, 0), 11 := Post(1, 0), 12 := Post(1, 5)]
    requires s.calls == map[1 := Bumping(1, 11, 0), 2 := Bumping(1, 12, 5)]
    ensures Feasible(s, rest)
    ensures var t := Exec(s, rest);
      && t.last == map[1 := Some(0)] && t.posts == map[10 := Post(1, 0), 11 := Post(1, 0)]
      && t.calls == map[1 := Ended, 2 := Bumping(1, 12, 5), 3 := Ended] && t.drawn == {10, 11, 12}
  {
    BumpWrites(s, 1, 13);
    var s1 := Apply(s, Step(1, 13));
    assert s1.last == map[1 := Some(0)];
    assert s1.calls == map[1 := Ended, 2 := Bumping(1, 12, 5)];
    rest := DeletedFrom(s1);
    ExecCons(s, Step(1, 13), rest);
    rest := [Step(1, 13)] + rest;
  }

  lemma DeletedFrom(s: State) returns (rest: seq<Action>)
    requires s.last == map[1 := Some(0)] && s.drawn == {10, 11, 12}
    requires s.posts == map[10 := Post(1, 0), 11 := Post(1, 0), 12 := Post(1, 5)]
    requires s.calls == map[1 := Ended, 2 := Bumping(1, 12, 5)]
    ensures Feasible(s, rest)
    ensures var t := Exec(s, rest);
      && t.last == map[1 := Some(0)] && t.posts == map[10 := Post(1, 0), 11 := Post(1, 0)]
      && t.calls == map[1 := Ended, 2 := Bumping(1, 12, 5), 3 := Ended] && t.drawn == {10, 11, 12}
  {
    var left: map<PostId, Post> := map[10 := Post(1, 0), 11 := Post(1, 0)];
    assert s.posts - {12} == left;
    TwoLeft(left);
    rest := DeleteAndRecount(s, 3, 12, Some(0));
  }

  lemma TwoLeft(left: map<PostId, Post>)
    requires left == map[10 := Post(1, 0), 11 := Post(1, 0)]
    ensures IsMax(TimesOf(left, 1), Some(0))
  {
    assert TimesOf(left, 1)[10] == 0;
  }

  /** The bump of a deleted reply: at rest the thread looks active at 5, though all its
      posts are of time 0. */
  lemma BumpIsOrphaned() returns (schedule: seq<Action>)
    ensures Feasible(Init(), schedule)
    ensures var s := Exec(Init(), schedule);
      AtRest(s, 1) && s.last == map[1 := Some(5)] && s.posts == map[10 := Post(1, 0), 11 := Post(1, 0)]
  {
    var first := TwoReplies();
    var rest := DeletedBeforeBump(TWO_REPLIES);
    var s := Exec(TWO_REPLIES, rest);
    OrphanFrom(s);
    ExecConcat(Init(), first, rest);
    ExecConcat(Init(), first + rest, [Step(2, 13)]);
    schedule := first + rest + [Step(2, 13)];
  }

  lemma OrphanFrom(s: State)
    requires s.last == map[1 := Some(0)] && s.drawn == {10, 11, 12}
    requires s.calls == map[1 := Ended, 2 := Bumping(1, 12, 5), 3 := Ended]
    ensures var bump := [Step(2, 13)];
      Feasible(s, bump) && Exec(s, bump).posts == s.posts
      && Exec(s, bump).last == map[1 := Some(5)] && AtRest(Exec(s, bump), 1)
  {
    BumpWrites(s, 2, 13);
    ExecCons(s, Step(2, 13), []);
    assert [Step(2, 13)] + [] == [Step(2, 13)];
    AllEnded(Apply(s, Step(2, 13)), 1);
  }
}
