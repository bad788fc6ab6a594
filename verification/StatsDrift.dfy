/** Thread counters when replies and deletions interleave statement by statement.

    A reply inserts its post and bumps the counter in two statements, a deletion
    removes the post and recomputes the counter in two; there is no transaction
    around either.  The counter then agrees with the posts table only up to an
    exactly known drift. */
module StatsDrift {
  import opened Counting

  type ThreadId = nat
  type PostId = nat
  type CallId = nat

  datatype Call =
    | Replying(th: ThreadId)              // thread read, before INSERT
    | Bumping(th: ThreadId)               // post inserted, before BumpPost
    | Deleting(p: PostId, th: ThreadId)   // post read, before DELETE
    | Recalculating(th: ThreadId)         // post deleted, before RecalcStats
    | Ended

  /** History of a thread: deletions since its counter was last recomputed, and
      how many bumps were pending at that moment (0 if it never was). */
  datatype Ledger = Ledger(deletes: nat, bumpsAtRecalc: nat)

  datatype State = State(
    counts: map<ThreadId, int>, posts: map<PostId, ThreadId>,
    calls: map<CallId, Call>, crashed: set<CallId>,
    ledgers: map<ThreadId, Ledger>, drawn: set<PostId>)

  datatype Action =
    | OpenThread(th: ThreadId, p: PostId)   // one transaction: thread, first post, count
    | DropThread(th: ThreadId)              // cascades to the posts
    | StartReply(c: CallId, th: ThreadId)   // the thread exists and is not locked
    | StartDelete(c: CallId, p: PostId)     // the post exists and may be deleted
    | Step(c: CallId, id: PostId)        // the call's next statement
    | Crash(c: CallId)                      // it fails, and stays where it is

  function Init(): State {
    State(map[], map[], map[], {}, map[], {})
  }

  predicate Enabled(s: State, a: Action) {
    match a
    case OpenThread(th, p) => th !in s.ledgers && p !in s.drawn
    case DropThread(_) => true
    case StartReply(c, th) => c !in s.calls && th in s.counts
    case StartDelete(c, p) => c !in s.calls && p in s.posts
    case Step(c, id) => c in s.calls && c !in s.crashed && !s.calls[c].Ended? && id !in s.drawn
    case Crash(c) => c in s.calls
  }

  function PostsOf(s: State, th: ThreadId): set<PostId> {
    set p | p in s.posts && s.posts[p] == th
  }

  /** The calls, crashed ones included, that stand before the given statement. */
  function Pending(s: State, call: Call): set<CallId> {
    set c | c in s.calls && s.calls[c] == call
  }

  function NextCall(s: State, call: Call): Call {
    match call
    case Replying(th) => if th in s.counts then Bumping(th) else Ended
    case Deleting(p, th) => if p in s.posts then Recalculating(th) else Ended
    case _ => Ended
  }

  function Statement(s: State, call: Call, id: PostId): State {
    match call
    case Replying(th) =>
      if th in s.counts then s.(posts := s.posts[id := th], drawn := s.drawn + {id}) else s
    case Bumping(th) =>
      if th in s.counts then s.(counts := s.counts[th := s.counts[th] + 1]) else s
    case Deleting(p, th) =>
      if p in s.posts && th in s.ledgers
      then s.(posts := s.posts - {p}, ledgers := s.ledgers[th := s.ledgers[th].(deletes := s.ledgers[th].deletes + 1)])
      else s
    case Recalculating(th) =>
      if th in s.counts
      then s.(counts := s.counts[th := |PostsOf(s, th)|],
              ledgers := s.ledgers[th := Ledger(0, |Pending(s, Bumping(th))|)])
      else s
    case Ended => s
  }

  function Apply(s: State, a: Action): State
    requires Enabled(s, a)
  {
    match a
    case OpenThread(th, p) =>
      s.(counts := s.counts[th := 1], posts := s.posts[p := th], drawn := s.drawn + {p},
         ledgers := s.ledgers[th := Ledger(0, 0)])
    case DropThread(th) => s.(counts := s.counts - {th}, posts := s.posts - PostsOf(s, th))
    case StartReply(c, th) => s.(calls := s.calls[c := Replying(th)])
    case StartDelete(c, p) => s.(calls := s.calls[c := Deleting(p, s.posts[p])])
    case Step(c, id) =>
      Statement(s, s.calls[c], id).(calls := s.calls[c := NextCall(s, s.calls[c])])
    case Crash(c) => s.(crashed := s.crashed + {c})
  }

  predicate Feasible(s: State, schedule: seq<Action>)
    decreases schedule
  {
    schedule == [] || (Enabled(s, schedule[0]) && Feasible(Apply(s, schedule[0]), schedule[1..]))
  }

  function Exec(s: State, schedule: seq<Action>): State
    requires Feasible(s, schedule)
    decreases schedule
  {
    if schedule == [] then s else Exec(Apply(s, schedule[0]), schedule[1..])
  }

  // ---------------------------------------------------------------- invariants

  /** Everything refers to threads and posts that exist or existed. */
  ghost predicate Known(s: State) {
    && s.counts.Keys <= s.ledgers.Keys && s.posts.Keys <= s.drawn
    && (forall p :: p in s.posts ==> s.posts[p] in s.ledgers)
    && (forall c :: c in s.calls && !s.calls[c].Ended? ==> s.calls[c].th in s.ledgers)
    && (forall c :: c in s.calls && s.calls[c].Deleting? ==>
          s.calls[c].p in s.drawn && (s.calls[c].p in s.posts ==> s.posts[s.calls[c].p] == s.calls[c].th))
  }

  /** The drift equation. */
  ghost predicate Balanced(s: State, th: ThreadId)
    requires th in s.counts && th in s.ledgers
  {
    s.counts[th] + |Pending(s, Bumping(th))| == |PostsOf(s, th)| + s.ledgers[th].deletes + s.ledgers[th].bumpsAtRecalc
  }

  /** Every deletion since the last recomputation still owes one. */
  ghost predicate Owed(s: State, th: ThreadId)
    requires th in s.ledgers
  {
    s.ledgers[th].deletes <= |Pending(s, Recalculating(th))|
  }

  ghost predicate Inv(s: State) {
    && Known(s)
    && (forall th :: th in s.counts ==> Balanced(s, th) && Owed(s, th))
  }

  // -------------------------------------------------------------- preservation

  lemma PendingSet(s: State, t: State, c: CallId, next: Call, call: Call)
    requires t.calls == s.calls[c := next]
    ensures Pending(t, call) == if next == call then Pending(s, call) + {c} else Pending(s, call) - {c}
    ensures c in Pending(s, call) <==> c in s.calls && s.calls[c] == call
  {
  }

  /** How one call's move changes the number of calls before a statement. */
  lemma PendingMove(s: State, t: State, c: CallId, next: Call, call: Call)
    requires t.calls == s.calls[c := next] && c in s.calls && next != s.calls[c]
    ensures |Pending(t, call)| + OneIf(s.calls[c] == call) == |Pending(s, call)| + OneIf(next == call)
  {
    PendingSet(s, t, c, next, call);
  }

  lemma PostsGrow(s: State, t: State, p: PostId, to: ThreadId, th: ThreadId)
    requires t.posts == s.posts[p := to] && p !in s.posts
    ensures |PostsOf(t, th)| == |PostsOf(s, th)| + OneIf(to == th)
  {
    assert PostsOf(t, th) == if to == th then PostsOf(s, th) + {p} else PostsOf(s, th);
  }

  lemma PostsShrink(s: State, t: State, p: PostId, th: ThreadId)
    requires t.posts == s.posts - {p} && p in s.posts
    ensures |PostsOf(t, th)| + OneIf(s.posts[p] == th) == |PostsOf(s, th)|
  {
    assert PostsOf(t, th) == if s.posts[p] == th then PostsOf(s, th) - {p} else PostsOf(s, th);
  }

  lemma KnownStep(s: State, a: Action)
    requires Known(s) && Enabled(s, a)
    ensures Known(Apply(s, a))
  {
  }

  ghost predicate Good(s: State, th: ThreadId) {
    th in s.ledgers && (th in s.counts ==> Balanced(s, th) && Owed(s, th))
  }

  lemma ReplyStep(s: State, t: State, c: CallId, to: ThreadId, id: PostId, th: ThreadId)
    requires Good(s, th) && c in s.calls && s.calls[c] == Replying(to) && id !in s.posts
    requires t.counts == s.counts && t.ledgers == s.ledgers
    requires t.posts == s.posts[id := to] && t.calls == s.calls[c := Bumping(to)]
    ensures Good(t, th)
  {
    PendingMove(s, t, c, Bumping(to), Bumping(th));
    PendingMove(s, t, c, Bumping(to), Recalculating(th));
    PostsGrow(s, t, id, to, th);
  }

  lemma BumpStep(s: State, t: State, c: CallId, to: ThreadId, th: ThreadId)
    requires Good(s, th) && c in s.calls && s.calls[c] == Bumping(to) && t.ledgers == s.ledgers && t.posts == s.posts
    requires t.counts == if to in s.counts then s.counts[to := s.counts[to] + 1] else s.counts
    requires t.calls == s.calls[c := Ended]
    ensures Good(t, th)
  {
    PendingMove(s, t, c, Ended, Bumping(th));
    PendingMove(s, t, c, Ended, Recalculating(th));
  }

  lemma DeleteStep(s: State, t: State, c: CallId, p: PostId, from: ThreadId, th: ThreadId)
    requires Good(s, th) && c in s.calls && s.calls[c] == Deleting(p, from)
    requires p in s.posts && s.posts[p] == from && from in s.ledgers
    requires t.counts == s.counts && t.posts == s.posts - {p} && t.calls == s.calls[c := Recalculating(from)]
    requires t.ledgers == s.ledgers[from := s.ledgers[from].(deletes := s.ledgers[from].deletes + 1)]
    ensures Good(t, th)
  {
    PendingMove(s, t, c, Recalculating(from), Bumping(th));
    PendingMove(s, t, c, Recalculating(from), Recalculating(th));
    PostsShrink(s, t, p, th);
  }

  lemma RecalcStep(s: State, t: State, c: CallId, of: ThreadId, th: ThreadId)
    requires Good(s, th) && c in s.calls && s.calls[c] == Recalculating(of) && of in s.counts
    requires t.posts == s.posts && t.calls == s.calls[c := Ended]
    requires t.counts == s.counts[of := |PostsOf(s, of)|]
    requires t.ledgers == s.ledgers[of := Ledger(0, |Pending(s, Bumping(of))|)]
    ensures Good(t, th)
  {
    PendingMove(s, t, c, Ended, Bumping(th));
    PendingMove(s, t, c, Ended, Recalculating(th));
  }

  /** A call that found its row gone. */
  lemma IdleStep(s: State, t: State, c: CallId, th: ThreadId)
    requires Good(s, th) && c in s.calls && !s.calls[c].Ended?
    requires s.calls[c].Bumping? || s.calls[c].Recalculating? ==> s.calls[c].th !in s.counts
    requires t.counts == s.counts && t.ledgers == s.ledgers && t.posts == s.posts && t.calls == s.calls[c := Ended]
    ensures Good(t, th)
  {
    PendingMove(s, t, c, Ended, Bumping(th));
    PendingMove(s, t, c, Ended, Recalculating(th));
  }

  lemma CallStep(s: State, a: Action, th: ThreadId)
    requires Known(s) && Enabled(s, a) && a.Step? && Good(s, th)
    ensures Good(Apply(s, a), th)
  {
    var t := Apply(s, a);
    match s.calls[a.c]
    case Replying(to) =>
      if to in s.counts { ReplyStep(s, t, a.c, to, a.id, th); } else { IdleStep(s, t, a.c, th); }
    case Bumping(to) => BumpStep(s, t, a.c, to, th);
    case Deleting(p, from) =>
      if p in s.posts { DeleteStep(s, t, a.c, p, from, th); } else { IdleStep(s, t, a.c, th); }
    case Recalculating(of) =>
      if of in s.counts { RecalcStep(s, t, a.c, of, th); } else { IdleStep(s, t, a.c, th); }
  }

  lemma OpenStep(s: State, a: Action, th: ThreadId)
    requires Known(s) && Enabled(s, a) && a.OpenThread? && (th in s.ledgers ==> Good(s, th))
    requires th in s.ledgers || th == a.th
    ensures Good(Apply(s, a), th)
  {
    var t := Apply(s, a);
    PostsGrow(s, t, a.p, a.th, th);
    if th == a.th {
      assert Pending(s, Bumping(th)) == {} && PostsOf(s, th) == {};
    }
    assert Pending(t, Bumping(th)) == Pending(s, Bumping(th));
    assert Pending(t, Recalculating(th)) == Pending(s, Recalculating(th));
  }

  lemma DropStep(s: State, a: Action, th: ThreadId)
    requires Enabled(s, a) && a.DropThread? && Good(s, th)
    ensures Good(Apply(s, a), th)
  {
    var t := Apply(s, a);
    assert Pending(t, Bumping(th)) == Pending(s, Bumping(th));
    assert Pending(t, Recalculating(th)) == Pending(s, Recalculating(th));
    assert th != a.th ==> PostsOf(t, th) == PostsOf(s, th);
  }

  lemma StartStep(s: State, a: Action, th: ThreadId)
    requires Enabled(s, a) && (a.StartReply? || a.StartDelete? || a.Crash?) && Good(s, th)
    ensures Good(Apply(s, a), th)
  {
    var t := Apply(s, a);
    assert PostsOf(t, th) == PostsOf(s, th);
    assert Pending(t, Bumping(th)) == Pending(s, Bumping(th));
    assert Pending(t, Recalculating(th)) == Pending(s, Recalculating(th));
  }

  lemma InvStep(s: State, a: Action)
    requires Inv(s) && Enabled(s, a)
    ensures Inv(Apply(s, a))
  {
    KnownStep(s, a);
    forall th | th in Apply(s, a).ledgers
      ensures Good(Apply(s, a), th)
    {
      match a
      case OpenThread(_, _) => OpenStep(s, a, th);
      case DropThread(_) => DropStep(s, a, th);
      case Step(_, _) => CallStep(s, a, th);
      case _ => StartStep(s, a, th);
    }
  }

  lemma {:induction false} InvExec(s: State, schedule: seq<Action>)
    requires Inv(s) && Feasible(s, schedule)
    ensures Inv(Exec(s, schedule))
    decreases schedule
  {
    if schedule != [] {
      InvStep(s, schedule[0]);
      InvExec(Apply(s, schedule[0]), schedule[1..]);
    }
  }

  // ------------------------------------------------------------------- theorems

  /** In every interleaving, crashes included, on every live thread:
      post_count + pending bumps
        == posts + deletions since the last recomputation + bumps pending at it. */
  lemma DriftEquation(schedule: seq<Action>, th: ThreadId)
    requires Feasible(Init(), schedule) && th in Exec(Init(), schedule).counts
    ensures var s := Exec(Init(), schedule);
      && th in s.ledgers
      && s.counts[th] + |Pending(s, Bumping(th))|
         == |PostsOf(s, th)| + s.ledgers[th].deletes + s.ledgers[th].bumpsAtRecalc
  {
    InvExec(Init(), schedule);
    assert Balanced(Exec(Init(), schedule), th);
  }

  /** No call stands between the two statements of a reply or a deletion on th. */
  ghost predicate AtRest(s: State, th: ThreadId) {
    Pending(s, Bumping(th)) == {} && Pending(s, Recalculating(th)) == {}
  }

  /** At rest the counter never undercounts, and it is exact if and only if no
      bump was pending when it was last recomputed. */
  lemma DriftAtRest(schedule: seq<Action>, th: ThreadId)
    requires Feasible(Init(), schedule) && th in Exec(Init(), schedule).counts
    requires AtRest(Exec(Init(), schedule), th)
    ensures var s := Exec(Init(), schedule);
      && th in s.ledgers
      && s.counts[th] == |PostsOf(s, th)| + s.ledgers[th].bumpsAtRecalc
      && (s.counts[th] == |PostsOf(s, th)| <==> s.ledgers[th].bumpsAtRecalc == 0)
  {
    InvExec(Init(), schedule);
    assert Balanced(Exec(Init(), schedule), th) && Owed(Exec(Init(), schedule), th);
  }

  // A call that fails between its two statements.

  /** Replies that inserted their post and failed before the bump. */
  function CrashedBumps(s: State, th: ThreadId): set<CallId> {
    set c | c in Pending(s, Bumping(th)) && c in s.crashed
  }

  lemma {:induction false} CrashedStays(s: State, schedule: seq<Action>, c: CallId, th: ThreadId)
    requires Feasible(s, schedule) && c in CrashedBumps(s, th)
    ensures c in CrashedBumps(Exec(s, schedule), th)
    decreases schedule
  {
    if schedule != [] {
      CrashedStays(Apply(s, schedule[0]), schedule[1..], c, th);
    }
  }

  /** Once everything but the crashed replies has finished, the counter misses them,
      save for the bumps that were pending at the last recomputation.  It undercounts
      if and only if those were fewer; the bump of a crashed reply never comes. */
  lemma CrashUndercounts(before: seq<Action>, after: seq<Action>, c: CallId, th: ThreadId)
    requires Feasible(Init(), before) && Feasible(Exec(Init(), before), after)
    requires c in CrashedBumps(Exec(Init(), before), th)
    requires var s := Exec(Exec(Init(), before), after);
      th in s.counts && Pending(s, Bumping(th)) == CrashedBumps(s, th) && Pending(s, Recalculating(th)) == {}
    ensures var s := Exec(Exec(Init(), before), after);
      && th in s.ledgers && c in CrashedBumps(s, th)
      && s.counts[th] + |CrashedBumps(s, th)| == |PostsOf(s, th)| + s.ledgers[th].bumpsAtRecalc
      && (s.counts[th] < |PostsOf(s, th)| <==> s.ledgers[th].bumpsAtRecalc < |CrashedBumps(s, th)|)
  {
    var s := Exec(Exec(Init(), before), after);
    InvExec(Init(), before);
    InvExec(Exec(Init(), before), after);
    CrashedStays(Exec(Init(), before), after, c, th);
    assert Balanced(s, th) && Owed(s, th);
    assert c in CrashedBumps(s, th);
  }

  /** The next recomputation makes the counter exact, crashed replies included. */
  lemma RecalcRepairs(s: State, c: CallId, id: PostId, th: ThreadId)
    requires Enabled(s, Step(c, id)) && s.calls[c] == Recalculating(th) && th in s.counts
    ensures var t := Apply(s, Step(c, id));
      t.counts[th] == |PostsOf(t, th)| && t.ledgers[th] == Ledger(0, |Pending(s, Bumping(th))|)
  {
    assert PostsOf(Apply(s, Step(c, id)), th) == PostsOf(s, th);
  }

  lemma {:induction false} ExecAppend(s: State, schedule: seq<Action>, a: Action)
    requires Feasible(s, schedule) && Enabled(Exec(s, schedule), a)
    ensures Feasible(s, schedule + [a]) && Exec(s, schedule + [a]) == Apply(Exec(s, schedule), a)
    decreases schedule
  {
    if schedule == [] {
      assert (schedule + [a])[1..] == [];
    } else {
      ExecAppend(Apply(s, schedule[0]), schedule[1..], a);
      assert (schedule + [a])[1..] == schedule[1..] + [a];
    }
  }

  /** A thread with one post, a reply inserted but not counted, and a deletion
      of the first post not yet recomputed. */
  const INTERLEAVED := State(
    map[1 := 1], map[11 := 1], map[1 := Bumping(1), 2 := Recalculating(1)], {}, map[1 := Ledger(1, 0)], {10, 11})

  lemma InterleavedIsReachable() returns (schedule: seq<Action>)
    ensures Feasible(Init(), schedule) && Exec(Init(), schedule) == INTERLEAVED
  {
    schedule := [];
    ExecAppend(Init(), schedule, OpenThread(1, 10));
    schedule := schedule + [OpenThread(1, 10)];
    assert Exec(Init(), schedule) == State(map[1 := 1], map[10 := 1], map[], {}, map[1 := Ledger(0, 0)], {10});
    ExecAppend(Init(), schedule, StartReply(1, 1));
    schedule := schedule + [StartReply(1, 1)];
    ExecAppend(Init(), schedule, Step(1, 11));
    schedule := schedule + [Step(1, 11)];
    assert Exec(Init(), schedule)
        == State(map[1 := 1], map[10 := 1, 11 := 1], map[1 := Bumping(1)], {}, map[1 := Ledger(0, 0)], {10, 11});
    ExecAppend(Init(), schedule, StartDelete(2, 10));
    schedule := schedule + [StartDelete(2, 10)];
    assert Exec(Init(), schedule).calls == map[1 := Bumping(1), 2 := Deleting(10, 1)];
    ExecAppend(Init(), schedule, Step(2, 12));
    schedule := schedule + [Step(2, 12)];
  }

  /** The same, after the recomputation. */
  const RECOUNTED := State(
    map[1 := 1], map[11 := 1], map[1 := Bumping(1), 2 := Ended], {}, map[1 := Ledger(0, 1)], {10, 11})

  lemma RecountedIsReachable() returns (schedule: seq<Action>)
    ensures Feasible(Init(), schedule) && Exec(Init(), schedule) == RECOUNTED
  {
    schedule := InterleavedIsReachable();
    assert PostsOf(INTERLEAVED, 1) == {11} && Pending(INTERLEAVED, Bumping(1)) == {1};
    ExecAppend(Init(), schedule, Step(2, 12));
    schedule := schedule + [Step(2, 12)];
  }

  /** The drift is real: a recomputation that falls between the INSERT and the
      bump of a reply counts the new post twice. */
  lemma DriftHappens() returns (schedule: seq<Action>)
    ensures Feasible(Init(), schedule)
    ensures var s := Exec(Init(), schedule);
      AtRest(s, 1) && s.counts == map[1 := 2] && PostsOf(s, 1) == {11}
  {
    schedule := RecountedIsReachable();
    ExecAppend(Init(), schedule, Step(1, 12));
    schedule := schedule + [Step(1, 12)];
  }

  /** So is the undercount: a reply that fails between its INSERT and its bump. */
  lemma CrashHappens() returns (schedule: seq<Action>)
    ensures Feasible(Init(), schedule)
    ensures var s := Exec(Init(), schedule);
      && s.counts == map[1 := 1] && PostsOf(s, 1) == {10, 11}
      && Pending(s, Bumping(1)) == CrashedBumps(s, 1) == {1} && Pending(s, Recalculating(1)) == {}
  {
    schedule := [];
    ExecAppend(Init(), schedule, OpenThread(1, 10));
    schedule := schedule + [OpenThread(1, 10)];
    assert Exec(Init(), schedule) == State(map[1 := 1], map[10 := 1], map[], {}, map[1 := Ledger(0, 0)], {10});
    ExecAppend(Init(), schedule, StartReply(1, 1));
    schedule := schedule + [StartReply(1, 1)];
    ExecAppend(Init(), schedule, Step(1, 11));
    schedule := schedule + [Step(1, 11)];
    assert Exec(Init(), schedule).calls == map[1 := Bumping(1)];
    ExecAppend(Init(), schedule, Crash(1));
    schedule := schedule + [Crash(1)];
    assert Exec(Init(), schedule).crashed == {1};
  }
}
