/** The order of presence broadcasts.  A goroutine flips its user's presence under
    the lock and posts the event after releasing it, so posts can overtake each
    other: this file says exactly when they do. */
module HubPresence {
  import opened Counting
  import opened Options
  import opened Registry
  import opened HubProtocol
  import opened HubSafety
  import opened HubHistory
  import opened HubTheorems

  // ------------------------------------------------------------ posts as flips

  /** The flips that the presence events of a log of posts report. */
  function Reported(posted: seq<Notify>): seq<Flip> {
    if posted == [] then [] else Reported(posted[..|posted| - 1]) + ReportedBy(posted[|posted| - 1])
  }

  function ReportedBy(n: Notify): seq<Flip> {
    if n.userID == NIL && n.event.Presence? then [Flip(n.event.user, n.event.online)] else []
  }

  /** The presence events of u, in the order in which they were queued. */
  function PostsOf(s: State, u: UserId): seq<bool> {
    FlipsOf(Reported(s.log.posted), u)
  }

  lemma ReportedAppend(posted: seq<Notify>, n: Notify)
    ensures Reported(posted + [n]) == Reported(posted) + ReportedBy(n)
  {
    assert (posted + [n])[..|posted|] == posted;
  }

  lemma {:induction false} ReportedCount(posted: seq<Notify>, u: UserId, b: bool)
    ensures multiset(Reported(posted))[Flip(u, b)] == multiset(posted)[PresenceNotify(u, b)]
  {
    if posted != [] {
      var front, last := posted[..|posted| - 1], posted[|posted| - 1];
      assert posted == front + [last];
      ReportedCount(front, u, b);
      CountAppend(front, last, PresenceNotify(u, b));
      if last.userID == NIL && last.event.Presence? {
        CountAppend(Reported(front), Flip(last.event.user, last.event.online), Flip(u, b));
      } else {
        assert Reported(front) + [] == Reported(front);
      }
    }
  }

  lemma {:induction false} FlipsOfCount(flips: seq<Flip>, u: UserId)
    ensures |FlipsOf(flips, u)| == multiset(flips)[Flip(u, true)] + multiset(flips)[Flip(u, false)]
    ensures Alternates(FlipsOf(flips, u)) ==>
      multiset(flips)[Flip(u, true)] == multiset(flips)[Flip(u, false)] + |FlipsOf(flips, u)| % 2
  {
    if flips != [] {
      var front, last := flips[..|flips| - 1], flips[|flips| - 1];
      assert flips == front + [last];
      FlipsOfCount(front, u);
      FlipsOfAppend(front, last, u);
      CountAppend(front, last, Flip(u, true));
      CountAppend(front, last, Flip(u, false));
      if last.user == u {
        AlternatesSplit(FlipsOf(front, u), last.online);
      } else {
        assert FlipsOf(front, u) + [] == FlipsOf(front, u);
      }
    }
  }

  lemma AlternatesSplit(bs: seq<bool>, b: bool)
    ensures Alternates(bs + [b]) <==> Alternates(bs) && (b <==> |bs| % 2 == 0)
  {
    if Alternates(bs + [b]) {
      assert (bs + [b])[|bs|] == b;
      assert forall i | 0 <= i < |bs| :: bs[i] == (bs + [b])[i];
    }
  }

  // -------------------------------------------------------- who can owe "online"

  /** Whoever owes "online" is the only one of that user to do so, and the user is
      still online: only an "offline" can be overdue. */
  ghost predicate OnlineOwedInv(s: State) {
    && (forall c | c in s.conns && Owes(s.conns[c].pc, true) :: s.conns[c].user in s.online)
    && (forall c, d | c in s.conns && d in s.conns && Owes(s.conns[c].pc, true) && Owes(s.conns[d].pc, true)
          && s.conns[c].user == s.conns[d].user :: c == d)
  }

  lemma OnlineOwedMove(s: State, t: State, c: ClientId, pc: Pc)
    requires OnlineOwedInv(s) && Moves(s, t, c, pc) && t.online == s.online
    requires Owes(pc, true) ==> Owes(s.conns[c].pc, true)
    ensures OnlineOwedInv(t)
  {
  }

  lemma OnlineOwedOn(s: State, t: State, c: ClientId, pc: Pc)
    requires OnlineOwedInv(s) && Moves(s, t, c, pc)
    requires s.conns[c].user !in s.online && t.online == s.online + {s.conns[c].user}
    ensures OnlineOwedInv(t)
  {
  }

  /** A goroutine that owes "online" is registered, so its user cannot go offline. */
  lemma OnlineOwedOff(s: State, t: State, c: ClientId, pc: Pc)
    requires OnlineOwedInv(s) && RegistryInv(s) && Moves(s, t, c, pc) && !Owes(pc, true)
    requires ClientsOf(s.clients, s.conns[c].user) == {} && t.online == s.online - {s.conns[c].user}
    ensures OnlineOwedInv(t)
  {
    forall d | d in s.conns && Owes(s.conns[d].pc, true) ensures s.conns[d].user != s.conns[c].user {
      assert Registered(s.conns[d].pc);
    }
  }

  lemma OnlineOwedStep(s: State, a: Action)
    requires OnlineOwedInv(s) && RegistryInv(s) && Enabled(s, a)
    ensures OnlineOwedInv(Apply(s, a))
  {
    var t := Apply(s, a);
    if a.Step? {
      var pc, next := s.conns[a.c].pc, NextPc(s, s.conns[a.c]);
      if pc.In? && pc.at.Mark? && Flips(s, s.conns[a.c].user, pc.call) {
        if pc.call.Register? {
          OnlineOwedOn(s, t, a.c, next);
        } else {
          OnlineOwedOff(s, t, a.c, next);
        }
      } else {
        OnlineOwedMove(s, t, a.c, next);
      }
    } else {
      OnlineOwedOther(s, a);
    }
  }

  lemma OnlineOwedOther(s: State, a: Action)
    requires OnlineOwedInv(s) && Enabled(s, a) && !a.Step?
    ensures OnlineOwedInv(Apply(s, a))
  {
    BystanderLeavesRegistry(s, a);
  }

  lemma OwingOnline(s: State, u: UserId)
    requires OnlineOwedInv(s)
    ensures |Owing(s, u, true)| <= 1 && (Owing(s, u, true) != {} ==> u in s.online)
  {
    if Owing(s, u, true) != {} {
      var c :| c in Owing(s, u, true);
      assert Owing(s, u, true) == {c};
    }
  }

  // ------------------------------------------------------------ one post at a time

  /** Posts "online" of u while some goroutine still owes an earlier "offline" of u. */
  ghost predicate Overtakes(s: State, a: Action, u: UserId)
    requires Enabled(s, a)
  {
    PostedBy(s, a) == [PresenceNotify(u, true)] && Owing(s, u, false) != {}
  }

  /** While the posts of u alternate, their parity is known from what is owed. */
  lemma PostsParity(s: State, u: UserId)
    requires FlipInv(s) && PresenceInv(s) && Alternates(PostsOf(s, u))
    ensures |PostsOf(s, u)| % 2 + |Owing(s, u, true)| == |Owing(s, u, false)| + OneIf(u in s.online)
  {
    assert FlipsFit(s.log.flips, u, u in s.online);
    ReportedCount(s.log.posted, u, true);
    ReportedCount(s.log.posted, u, false);
    FlipsOfCount(Reported(s.log.posted), u);
  }

  /** Posts and debts together are as many as the flips. */
  lemma PostsBehindFlips(s: State, u: UserId)
    requires PresenceInv(s)
    ensures |PostsOf(s, u)| + |Owing(s, u, true)| + |Owing(s, u, false)| == |FlipsOf(s.log.flips, u)|
  {
    ReportedCount(s.log.posted, u, true);
    ReportedCount(s.log.posted, u, false);
    FlipsOfCount(Reported(s.log.posted), u);
    FlipsOfCount(s.log.flips, u);
  }

  /** What an action adds to the posts of u. */
  function PostFor(s: State, a: Action, u: UserId): seq<bool>
    requires Enabled(s, a)
  {
    if PostedBy(s, a) == [PresenceNotify(u, true)] then [true]
    else if PostedBy(s, a) == [PresenceNotify(u, false)] then [false]
    else []
  }

  lemma PostsOfStep(s: State, a: Action, u: UserId)
    requires Enabled(s, a)
    ensures PostsOf(Apply(s, a), u) == PostsOf(s, u) + PostFor(s, a, u)
  {
    PostedLog(s, a);
    if PostedBy(s, a) == [] {
      assert s.log.posted + [] == s.log.posted;
    } else {
      var n := PostedBy(s, a)[0];
      ReportedAppend(s.log.posted, n);
      if ReportedBy(n) != [] {
        FlipsOfAppend(Reported(s.log.posted), ReportedBy(n)[0], u);
      } else {
        assert Reported(s.log.posted) + [] == Reported(s.log.posted);
      }
    }
  }

  lemma PosterOwes(s: State, a: Action, u: UserId, b: bool)
    requires Enabled(s, a) && PostedBy(s, a) == [PresenceNotify(u, b)]
    ensures a.Step? && a.c in Owing(s, u, b)
  {
  }

  /** A post keeps the posts of u alternating exactly if it overtakes none. */
  lemma PostKeepsOrder(s: State, a: Action, u: UserId)
    requires FlipInv(s) && PresenceInv(s) && OnlineOwedInv(s) && Enabled(s, a)
    requires Alternates(PostsOf(s, u))
    ensures Alternates(PostsOf(Apply(s, a), u)) <==> !Overtakes(s, a, u)
  {
    PostsOfStep(s, a, u);
    PostsParity(s, u);
    OwingOnline(s, u);
    if PostFor(s, a, u) == [true] {
      PosterOwes(s, a, u, true);
      AlternatesSplit(PostsOf(s, u), true);
    } else if PostFor(s, a, u) == [false] {
      PosterOwes(s, a, u, false);
      AlternatesSplit(PostsOf(s, u), false);
    } else {
      assert PostsOf(s, u) + [] == PostsOf(s, u);
    }
  }

  lemma AlternatesPrefix(xs: seq<bool>, ys: seq<bool>)
    requires xs <= ys && Alternates(ys)
    ensures Alternates(xs)
  {
  }

  ghost predicate OrderInv(s: State) {
    HistoryInv(s) && OnlineOwedInv(s)
  }

  lemma OrderStep(s: State, a: Action)
    requires OrderInv(s) && Enabled(s, a)
    ensures OrderInv(Apply(s, a))
  {
    HistoryStep(s, a);
    OnlineOwedStep(s, a);
  }

  // --------------------------------------------------------------------- theorems

  /** No "online" of u is posted while an "offline" of u is owed. */
  ghost predicate NoOvertaking(s: State, schedule: seq<Action>, u: UserId)
    requires Feasible(s, schedule)
    decreases schedule
  {
    schedule == [] || (!Overtakes(s, schedule[0], u) && NoOvertaking(Apply(s, schedule[0]), schedule[1..], u))
  }

  lemma {:induction false} OrderExec(s: State, schedule: seq<Action>, u: UserId)
    requires OrderInv(s) && Feasible(s, schedule)
    ensures OrderInv(Exec(s, schedule))
    ensures Alternates(PostsOf(Exec(s, schedule), u)) ==> Alternates(PostsOf(s, u))
    ensures Alternates(PostsOf(s, u)) ==>
      (Alternates(PostsOf(Exec(s, schedule), u)) <==> NoOvertaking(s, schedule, u))
    decreases schedule
  {
    if schedule != [] {
      var a := schedule[0];
      OrderStep(s, a);
      OrderExec(Apply(s, a), schedule[1..], u);
      PostsOfStep(s, a, u);
      if Alternates(PostsOf(Apply(s, a), u)) {
        AlternatesPrefix(PostsOf(s, u), PostsOf(Apply(s, a), u));
      }
      if Alternates(PostsOf(s, u)) {
        PostKeepsOrder(s, a, u);
      }
    }
  }

  lemma OrderReached(schedule: seq<Action>, u: UserId)
    requires Feasible(Init(), schedule)
    ensures OrderInv(Exec(Init(), schedule))
    ensures Alternates(PostsOf(Exec(Init(), schedule), u)) <==> NoOvertaking(Init(), schedule, u)
  {
    InitHistory();
    OrderExec(Init(), schedule, u);
  }

  /** At most one goroutine of a user owes "online", and then the user is online. */
  lemma OnlyOfflineIsOverdue(schedule: seq<Action>, u: UserId)
    requires Feasible(Init(), schedule)
    ensures var s := Exec(Init(), schedule);
      |Owing(s, u, true)| <= 1 && (Owing(s, u, true) != {} ==> u in s.online)
  {
    OrderReached(schedule, u);
    OwingOnline(Exec(Init(), schedule), u);
  }

  lemma PrefixOfFlips(xs: seq<bool>, flips: seq<bool>)
    requires Alternates(flips) && |xs| <= |flips|
    ensures xs <= flips <==> Alternates(xs)
  {
    if Alternates(xs) {
      assert forall i | 0 <= i < |xs| :: xs[i] == flips[i];
    }
  }

  /** The presence events of u are queued in the order of the flips they report if
      and only if no "online" was posted while an "offline" was owed. */
  lemma PresenceInOrder(schedule: seq<Action>, u: UserId)
    requires Feasible(Init(), schedule)
    ensures PostsOf(Exec(Init(), schedule), u) <= FlipsOf(Exec(Init(), schedule).log.flips, u)
      <==> NoOvertaking(Init(), schedule, u)
    ensures Alternates(PostsOf(Exec(Init(), schedule), u)) <==> NoOvertaking(Init(), schedule, u)
  {
    var s := Exec(Init(), schedule);
    OrderReached(schedule, u);
    PostsBehindFlips(s, u);
    assert FlipsFit(s.log.flips, u, u in s.online);
    PrefixOfFlips(PostsOf(s, u), FlipsOf(s.log.flips, u));
  }

  /** Then, with nothing owed, the last event posted is the user's presence. */
  lemma LastPostIsPresence(schedule: seq<Action>, u: UserId)
    requires Feasible(Init(), schedule) && NoOvertaking(Init(), schedule, u)
    requires Owing(Exec(Init(), schedule), u, true) == {} && Owing(Exec(Init(), schedule), u, false) == {}
    ensures var posts := PostsOf(Exec(Init(), schedule), u);
      u in Exec(Init(), schedule).online <==> posts != [] && posts[|posts| - 1]
  {
    var s := Exec(Init(), schedule);
    OrderReached(schedule, u);
    PostsParity(s, u);
    LastFlip(PostsOf(s, u));
  }

  // ------------------------------------------------------------------ the witness

  lemma {:induction false} ExecConcat(s: State, first: seq<Action>, second: seq<Action>)
    requires Feasible(s, first) && Feasible(Exec(s, first), second)
    ensures Feasible(s, first + second) && Exec(s, first + second) == Exec(Exec(s, first), second)
    decreases first
  {
    if first == [] {
      assert first + second == second;
    } else {
      assert (first + second)[1..] == first[1..] + second;
      ExecConcat(Apply(s, first[0]), first[1..], second);
    }
  }

  lemma ExecOne(s: State, a: Action)
    requires Enabled(s, a)
    ensures Feasible(s, [a]) && Exec(s, [a]) == Apply(s, a)
  {
  }

  lemma ExecTwo(s: State, a: Action, b: Action)
    requires Enabled(s, a) && Enabled(Apply(s, a), b)
    ensures Feasible(s, [a, b]) && Exec(s, [a, b]) == Apply(Apply(s, a), b)
  {
    ExecOne(s, a);
    ExecOne(Apply(s, a), b);
    ExecConcat(s, [a], [b]);
    assert [a] + [b] == [a, b];
  }

  function At(s: State, c: ClientId, pc: Pc): State
    requires c in s.conns
  {
    s.(conns := s.conns[c := s.conns[c].(pc := pc)])
  }

  const FREE := RWMutex(None, 0, 0)

  /** Nobody else wants the lock. */
  lemma Acquire(s: State, c: ClientId, call: Call)
    requires c in s.conns && c in s.channels && s.conns[c].pc == In(call, Lock) && s.lock == FREE && s.run.Idle?
    ensures Feasible(s, [Step(c), Step(c)])
    ensures Exec(s, [Step(c), Step(c)]) == At(s.(lock := RWMutex(Some(c), 0, 0)), c, In(call, Edit))
  {
    ExecTwo(s, Step(c), Step(c));
  }

  function Edited(s: State, c: ClientId, call: Call): State
    requires c in s.conns
  {
    s.(clients := if call.Register? then AddClient(s.clients, s.conns[c].user, c)
                  else RemoveClient(s.clients, s.conns[c].user, c))
  }

  lemma EditStep(s: State, c: ClientId, call: Call)
    requires c in s.conns && c in s.channels && s.conns[c].pc == In(call, Edit)
    ensures Enabled(s, Step(c)) && Apply(s, Step(c)) == At(Edited(s, c, call), c, In(call, Mark))
  {
  }

  lemma MarkStep(s: State, c: ClientId, call: Call)
    requires c in s.conns && c in s.channels && s.conns[c].pc == In(call, Mark)
    requires Flips(s, s.conns[c].user, call)
    ensures Enabled(s, Step(c))
    ensures Apply(s, Step(c)) == At(FlipUser(s, s.conns[c].user, call.Register?), c, In(call, Unlock(true)))
  {
  }

  lemma MoveTwice(conns: map<ClientId, Conn>, c: ClientId, first: Conn, second: Conn)
    ensures conns[c := first][c := second] == conns[c := second]
  {
  }

  lemma FlipAfterMove(s: State, c: ClientId, on: bool, first: Pc, second: Pc)
    requires c in s.conns
    ensures At(FlipUser(At(s, c, first), s.conns[c].user, on), c, second)
      == At(FlipUser(s, s.conns[c].user, on), c, second)
  {
    MoveTwice(s.conns, c, s.conns[c].(pc := first), s.conns[c].(pc := second));
  }

  lemma EditAndMark(s: State, c: ClientId, call: Call)
    requires c in s.conns && c in s.channels && s.conns[c].pc == In(call, Edit)
    requires Flips(Edited(s, c, call), s.conns[c].user, call)
    ensures Feasible(s, [Step(c), Step(c)])
    ensures Exec(s, [Step(c), Step(c)])
      == At(FlipUser(Edited(s, c, call), s.conns[c].user, call.Register?), c, In(call, Unlock(true)))
  {
    var edited := Edited(s, c, call);
    var t := At(edited, c, In(call, Mark));
    EditStep(s, c, call);
    MarkStep(t, c, call);
    FlipAfterMove(edited, c, call.Register?, In(call, Mark), In(call, Unlock(true)));
    ExecTwo(s, Step(c), Step(c));
  }

  lemma Leave(s: State, c: ClientId, call: Call)
    requires c in s.conns && c in s.channels && s.conns[c].pc == In(call, Unlock(true))
    requires s.lock == RWMutex(Some(c), 0, 0) && s.run.Idle?
    ensures Feasible(s, [Step(c)]) && Exec(s, [Step(c)]) == At(s.(lock := FREE), c, In(call, Point.Post))
  {
    ExecOne(s, Step(c));
  }

  /** From the announcement of the lock to the debt: the whole critical section. */
  lemma CriticalSection(s: State, c: ClientId, call: Call) returns (schedule: seq<Action>)
    requires c in s.conns && c in s.channels && s.conns[c].pc == In(call, Lock) && s.lock == FREE && s.run.Idle?
    requires Flips(Edited(s, c, call), s.conns[c].user, call)
    ensures Feasible(s, schedule)
    ensures Exec(s, schedule)
      == At(FlipUser(Edited(s, c, call), s.conns[c].user, call.Register?), c, In(call, Point.Post))
  {
    var two := [Step(c), Step(c)];
    Acquire(s, c, call);
    var s2 := Exec(s, two);
    EditAndMark(s2, c, call);
    ExecConcat(s, two, two);
    var s4 := Exec(s2, two);
    Leave(s4, c, call);
    ExecConcat(s, two + two, [Step(c)]);
    schedule := two + two + [Step(c)];
  }

  lemma PostStep(s: State, c: ClientId, call: Call)
    requires c in s.conns && c in s.channels && s.conns[c].pc == In(call, Point.Post)
    requires |s.notifyCh| < NOTIFY_CAPACITY
    ensures Feasible(s, [Step(c)])
    ensures Exec(s, [Step(c)])
      == At(Enqueue(s, PresenceNotify(s.conns[c].user, call.Register?)), c, After(call))
  {
    ExecOne(s, Step(c));
  }

  /** A user who was offline connects, undisturbed, up to the debt ... */
  lemma Coming(s: State, c: ClientId, u: UserId) returns (schedule: seq<Action>)
    requires c !in s.conns && u !in s.online && s.lock == FREE && s.run.Idle?
    ensures Feasible(s, schedule)
    ensures var t := Exec(s, schedule);
      && t.conns == s.conns[c := Conn(u, In(Register, Point.Post))] && c in t.channels
      && s.channels.Keys <= t.channels.Keys
      && t.clients == AddClient(s.clients, u, c) && t.online == s.online + {u}
      && t.lock == FREE && t.run.Idle? && t.notifyCh == s.notifyCh
      && t.log.posted == s.log.posted && t.log.flips == s.log.flips + [Flip(u, true)]
  {
    ExecOne(s, Connect(c, u));
    var s1 := Apply(s, Connect(c, u));
    var section := CriticalSection(s1, c, Register);
    ExecConcat(s, [Connect(c, u)], section);
    schedule := [Connect(c, u)] + section;
  }

  /** ... and pays it. */
  lemma Arrival(s: State, c: ClientId, u: UserId) returns (schedule: seq<Action>)
    requires c !in s.conns && u !in s.online && s.lock == FREE && s.run.Idle? && |s.notifyCh| < NOTIFY_CAPACITY
    ensures Feasible(s, schedule)
    ensures var t := Exec(s, schedule);
      && t.conns == s.conns[c := Conn(u, Live)] && c in t.channels && s.channels.Keys <= t.channels.Keys
      && t.clients == AddClient(s.clients, u, c) && t.online == s.online + {u}
      && t.lock == FREE && t.run.Idle? && t.notifyCh == s.notifyCh + [PresenceNotify(u, true)]
      && t.log.posted == s.log.posted + [PresenceNotify(u, true)]
      && t.log.flips == s.log.flips + [Flip(u, true)]
  {
    var coming := Coming(s, c, u);
    PostStep(Exec(s, coming), c, Register);
    ExecConcat(s, coming, [Step(c)]);
    schedule := coming + [Step(c)];
  }

  /** The only client of u disconnects, up to the point where it owes "offline". */
  lemma Departure(s: State, c: ClientId) returns (schedule: seq<Action>)
    requires c in s.conns && c in s.channels && s.conns[c].pc == Live && s.lock == FREE && s.run.Idle?
    requires s.conns[c].user in s.online && s.clients == map[s.conns[c].user := {c}]
    ensures Feasible(s, schedule)
    ensures var t := Exec(s, schedule);
      && t.conns == s.conns[c := Conn(s.conns[c].user, In(Unregister, Point.Post))] && t.channels == s.channels
      && t.clients == map[] && t.online == s.online - {s.conns[c].user}
      && t.lock == FREE && t.run.Idle? && t.notifyCh == s.notifyCh
      && t.log.posted == s.log.posted && t.log.flips == s.log.flips + [Flip(s.conns[c].user, false)]
  {
    ExecOne(s, Step(c));
    var s1 := Apply(s, Step(c));
    assert {c} - {c} == {};
    assert Edited(s1, c, Unregister).clients == map[];
    var section := CriticalSection(s1, c, Unregister);
    ExecConcat(s, [Step(c)], section);
    schedule := [Step(c)] + section;
  }

  lemma AddFirst(u: UserId, c: ClientId)
    ensures AddClient(map[], u, c) == map[u := {c}]
  {
    var none: set<ClientId> := {};
    assert none + {c} == {c};
  }

  /** User 7 leaves with client 1 and returns with client 2, whose "online" overtakes
      the overdue "offline": with nothing owed any more, the last event anyone is
      sent says that user 7 is offline, and user 7 is online. */
  lemma StaleBroadcast() returns (schedule: seq<Action>)
    ensures Feasible(Init(), schedule)
    ensures var s := Exec(Init(), schedule);
      && 7 in s.online && Owing(s, 7, true) == {} && Owing(s, 7, false) == {}
      && s.log.posted == [PresenceNotify(7, true), PresenceNotify(7, true), PresenceNotify(7, false)]
      && s.log.flips == [Flip(7, true), Flip(7, false), Flip(7, true)]
  {
    var arrive := Arrival(Init(), 1, 7);
    var s1 := Exec(Init(), arrive);
    AddFirst(7, 1);
    var depart := Departure(s1, 1);
    ExecConcat(Init(), arrive, depart);
    var s2 := Exec(s1, depart);
    var again := Arrival(s2, 2, 7);
    ExecConcat(Init(), arrive + depart, again);
    var s3 := Exec(s2, again);
    PostStep(s3, 1, Unregister);
    ExecConcat(Init(), arrive + depart + again, [Step(1)]);
    schedule := arrive + depart + again + [Step(1)];
  }
}
