/** Deleting a group while threads are being created.

    The service counts the group's threads in one statement and deletes the group in
    another, whose foreign key cascades: a thread created in between is taken.  This
    file says exactly which threads a deletion takes. */
module GroupRace {
  type GroupId = nat
  type ThreadId = nat
  type CallId = nat

  datatype Call =
    | Checking(g: GroupId)    // before groups.GetByID
    | Counting(g: GroupId)    // group seen, before CountByGroup
    | Deleting(g: GroupId)    // no thread counted, before DELETE
    | Opening(g: GroupId)     // group seen, before the transaction that inserts a thread
    | Ended

  datatype State = State(
    groups: set<GroupId>, threads: map<ThreadId, GroupId>, calls: map<CallId, Call>,
    drawn: set<ThreadId>)     // history: thread ids ever used

  datatype Action =
    | AddGroup(g: GroupId)
    | StartDelete(c: CallId, g: GroupId)
    | StartOpen(c: CallId, g: GroupId)
    | Step(c: CallId, th: ThreadId)      // the call's next statement; th serves an INSERT
    | DropThread(th: ThreadId)

  function Init(): State {
    State({}, map[], map[], {})
  }

  predicate Enabled(s: State, a: Action) {
    match a
    case AddGroup(g) => g !in s.groups
    case StartDelete(c, _) => c !in s.calls
    case StartOpen(c, g) => c !in s.calls && g in s.groups
    case Step(c, th) => c in s.calls && !s.calls[c].Ended? && th !in s.drawn
    case DropThread(_) => true
  }

  function ThreadsOf(s: State, g: GroupId): set<ThreadId> {
    set th | th in s.threads && s.threads[th] == g
  }

  function NextCall(s: State, call: Call): Call {
    match call
    case Checking(g) => if g in s.groups then Counting(g) else Ended
    case Counting(g) => if ThreadsOf(s, g) == {} then Deleting(g) else Ended
    case _ => Ended
  }

  /** ON DELETE CASCADE, and the foreign key of an INSERT. */
  function Statement(s: State, call: Call, th: ThreadId): State {
    match call
    case Deleting(g) =>
      if g in s.groups then s.(groups := s.groups - {g}, threads := s.threads - ThreadsOf(s, g)) else s
    case Opening(g) =>
      if g in s.groups then s.(threads := s.threads[th := g], drawn := s.drawn + {th}) else s
    case _ => s
  }

  function Apply(s: State, a: Action): State
    requires Enabled(s, a)
  {
    match a
    case AddGroup(g) => s.(groups := s.groups + {g})
    case StartDelete(c, g) => s.(calls := s.calls[c := Checking(g)])
    case StartOpen(c, g) => s.(calls := s.calls[c := Opening(g)])
    case Step(c, th) => Statement(s, s.calls[c], th).(calls := s.calls[c := NextCall(s, s.calls[c])])
    case DropThread(th) => s.(threads := s.threads - {th})
  }

  predicate Feasible(s: State, schedule: seq<Action>)
    decreases schedule
  {
    schedule == [] || (Enabled(s, schedule[0]) && Feasible(Apply(s, schedule[0]), schedule[1..]))
  }

  function Exec(s: State, schedule: seq<Action>): State
    requires Feasible(s, schedule)
    decreases schedule
  {
    if schedule == [] then s else Exec(Apply(s, schedule[0]), schedule[1..])
  }

  /** The threads that an action creates in g. */
  function CreatedBy(s: State, a: Action, g: GroupId): set<ThreadId>
    requires Enabled(s, a)
  {
    if a.Step? && s.calls[a.c] == Opening(g) && g in s.groups then {a.th} else {}
  }

  function CreatedIn(s: State, schedule: seq<Action>, g: GroupId): set<ThreadId>
    requires Feasible(s, schedule)
    decreases schedule
  {
    if schedule == [] then {}
    else CreatedBy(s, schedule[0], g) + CreatedIn(Apply(s, schedule[0]), schedule[1..], g)
  }

  // ------------------------------------------------------------------ preservation

  ghost predicate Known(s: State) {
    s.threads.Keys <= s.drawn && (forall th :: th in s.threads ==> s.threads[th] in s.groups)
  }

  lemma KnownStep(s: State, a: Action)
    requires Known(s) && Enabled(s, a)
    ensures Known(Apply(s, a)) && s.drawn <= Apply(s, a).drawn
  {
  }

  lemma {:induction false} KnownExec(s: State, schedule: seq<Action>)
    requires Known(s) && Feasible(s, schedule)
    ensures Known(Exec(s, schedule))
    decreases schedule
  {
    if schedule != [] {
      KnownStep(s, schedule[0]);
      KnownExec(Apply(s, schedule[0]), schedule[1..]);
    }
  }

  lemma {:induction false} GoneStays(s: State, schedule: seq<Action>, th: ThreadId)
    requires Known(s) && Feasible(s, schedule) && th in s.drawn && th !in s.threads
    ensures th !in Exec(s, schedule).threads
    decreases schedule
  {
    if schedule != [] {
      KnownStep(s, schedule[0]);
      GoneStays(Apply(s, schedule[0]), schedule[1..], th);
    }
  }

  /** One action: a thread of g is an old one or a new one, and still there. */
  lemma ThreadsStep(s: State, a: Action, g: GroupId)
    requires Known(s) && Enabled(s, a)
    ensures ThreadsOf(Apply(s, a), g) == (ThreadsOf(s, g) + CreatedBy(s, a, g)) * Apply(s, a).threads.Keys
    ensures CreatedBy(s, a, g) <= Apply(s, a).drawn
  {
  }

  /** The same over a run. */
  lemma {:induction false} ThreadsBetween(s: State, schedule: seq<Action>, g: GroupId)
    requires Known(s) && Feasible(s, schedule)
    ensures ThreadsOf(Exec(s, schedule), g)
      == (ThreadsOf(s, g) + CreatedIn(s, schedule, g)) * Exec(s, schedule).threads.Keys
    decreases schedule
  {
    if schedule != [] {
      var t, rest := Apply(s, schedule[0]), schedule[1..];
      KnownStep(s, schedule[0]);
      ThreadsStep(s, schedule[0], g);
      ThreadsBetween(t, rest, g);
      forall th | th in ThreadsOf(s, g) + CreatedBy(s, schedule[0], g) && th !in t.threads
        ensures th !in Exec(t, rest).threads
      {
        GoneStays(t, rest, th);
      }
    }
  }

  lemma {:induction false} CallWaits(s: State, schedule: seq<Action>, c: CallId)
    requires Feasible(s, schedule) && c in s.calls
    requires forall i :: 0 <= i < |schedule| ==> !(schedule[i].Step? && schedule[i].c == c)
    ensures c in Exec(s, schedule).calls && Exec(s, schedule).calls[c] == s.calls[c]
    decreases schedule
  {
    if schedule != [] {
      CallWaits(Apply(s, schedule[0]), schedule[1..], c);
    }
  }

  // ---------------------------------------------------------------------- theorems

  /** A deletion that counted no thread takes exactly the threads created in the group
      between its count and its DELETE, as far as they are still there. */
  lemma DeletionTakesLatecomers(
    before: seq<Action>, c: CallId, g: GroupId, count: Action, between: seq<Action>, delete: Action)
    requires Feasible(Init(), before)
    requires var s := Exec(Init(), before);
      && count.Step? && count.c == c && c in s.calls && s.calls[c] == Counting(g) && Enabled(s, count)
      && ThreadsOf(s, g) == {} && Feasible(Apply(s, count), between)
    requires forall i :: 0 <= i < |between| ==> !(between[i].Step? && between[i].c == c)
    requires var t := Exec(Apply(Exec(Init(), before), count), between);
      delete.Step? && delete.c == c && Enabled(t, delete) && g in t.groups
    ensures var s := Apply(Exec(Init(), before), count);
      var t := Exec(s, between);
      var late := CreatedIn(s, between, g);
      && t.calls[c] == Deleting(g) && g !in Apply(t, delete).groups
      && Apply(t, delete).threads == t.threads - late
      && (Apply(t, delete).threads == t.threads <==> late !! t.threads.Keys)
  {
    KnownExec(Init(), before);
    KnownStep(Exec(Init(), before), count);
    var s := Apply(Exec(Init(), before), count);
    var t := Exec(s, between);
    var late := CreatedIn(s, between, g);
    ThreadsBetween(s, between, g);
    CallWaits(s, between, c);
    assert ThreadsOf(t, g) == late * t.threads.Keys;
    CascadeIs(t, delete, late, g);
  }

  lemma CascadeIs(t: State, delete: Action, late: set<ThreadId>, g: GroupId)
    requires delete.Step? && Enabled(t, delete) && t.calls[delete.c] == Deleting(g) && g in t.groups
    requires ThreadsOf(t, g) == late * t.threads.Keys
    ensures Apply(t, delete).threads == t.threads - late
    ensures Apply(t, delete).threads == t.threads <==> late !! t.threads.Keys
  {
    assert forall th :: th in late && th in t.threads ==> th in ThreadsOf(t, g);
  }

  lemma ExecCons(s: State, a: Action, rest: seq<Action>)
    requires Enabled(s, a) && Feasible(Apply(s, a), rest)
    ensures Feasible(s, [a] + rest) && Exec(s, [a] + rest) == Exec(Apply(s, a), rest)
  {
    assert ([a] + rest)[1..] == rest;
  }

  const COUNTING := State({1}, map[], map[1 := Counting(1), 2 := Opening(1)], {})

  /** It happens: thread 5 is created after the count, and goes with group 1. */
  lemma LatecomerIsTaken()
    ensures var schedule :=
        [AddGroup(1), StartDelete(1, 1), Step(1, 9), StartOpen(2, 1)] + [Step(1, 9), Step(2, 5), Step(1, 9)];
      && Feasible(Init(), schedule)
      && Exec(Init(), schedule).groups == {} && Exec(Init(), schedule).threads == map[]
      && Exec(Init(), schedule).drawn == {5}
  {
    LastThree();
    FirstFour(AddGroup(1), StartDelete(1, 1), Step(1, 9), StartOpen(2, 1), [Step(1, 9), Step(2, 5), Step(1, 9)]);
  }

  lemma LastThree()
    ensures var rest := [Step(1, 9), Step(2, 5), Step(1, 9)];
      Feasible(COUNTING, rest) && Exec(COUNTING, rest) == State({}, map[], map[1 := Ended, 2 := Ended], {5})
  {
    var counted := State({1}, map[], map[1 := Deleting(1), 2 := Opening(1)], {});
    var created := State({1}, map[5 := 1], map[1 := Deleting(1), 2 := Ended], {5});
    assert ThreadsOf(COUNTING, 1) == {} && ThreadsOf(created, 1) == {5};
    assert Apply(COUNTING, Step(1, 9)) == counted;
    assert Apply(counted, Step(2, 5)) == created;
    ExecCons(created, Step(1, 9), []);
    ExecCons(counted, Step(2, 5), [Step(1, 9)]);
    ExecCons(COUNTING, Step(1, 9), [Step(2, 5), Step(1, 9)]);
  }

  lemma FirstFour(a1: Action, a2: Action, a3: Action, a4: Action, rest: seq<Action>)
    requires a1 == AddGroup(1) && a2 == StartDelete(1, 1) && a3 == Step(1, 9) && a4 == StartOpen(2, 1)
    requires Feasible(COUNTING, rest)
    ensures Feasible(Init(), [a1, a2, a3, a4] + rest)
    ensures Exec(Init(), [a1, a2, a3, a4] + rest)
      == Exec(COUNTING, rest)
  {
    var s1 := Apply(Init(), a1);
    var s2 := Apply(s1, a2);
    var s3 := Apply(s2, a3);
    assert Apply(s3, a4) == COUNTING;
    ExecCons(s3, a4, rest);
    ExecCons(s2, a3, [a4] + rest);
    ExecCons(s1, a2, [a3] + ([a4] + rest));
    ExecCons(Init(), a1, [a2] + ([a3] + ([a4] + rest)));
    assert [a1, a2, a3, a4] + rest == [a1] + ([a2] + ([a3] + ([a4] + rest)));
  }
}
