/** Progress of the realtime hub.  `Notify` and `Broadcast` do block on a full
    queue, whatever their comments say; but a goroutine blocked there holds no
    lock, and `deliver` never waits for a client.  So as long as the context is
    not cancelled the dispatcher, or whoever it waits for, can always move, and
    a bounded number of such moves delivers any given notification. */
module HubProgress {
  import opened Counting
  import opened Options
  import opened Registry
  import opened HubProtocol
  import opened HubSafety
  import opened HubHistory
  import opened HubTheorems

  /** The notification with this ticket (its position in the log of posts) has
      been brought to everyone it was addressed to. */
  predicate Delivered(s: State, ticket: nat) {
    ticket < |s.log.deliveries| && !(s.run.Walking? && ticket == |s.log.deliveries| - 1)
  }

  /** The steps of the dispatcher and, while it is parked on the lock, those of
      the lock's holder and of the readers the holder waits for. */
  predicate Helps(s: State, a: Action) {
    || a.Dispatch?
    || a.Visit?
    || (s.run.Parked? && (a.ExitQuery? || (a.Step? && s.lock.writer == Some(a.c))))
  }

  // ------------------------------------------------------------------- measure

  /** Steps left until the announced writer has unlocked. */
  function WriterWork(s: State): nat {
    if s.lock.writer.None? || s.lock.writer.value !in s.conns then 0
    else
      match s.conns[s.lock.writer.value].pc
      case In(_, Wait) => 4 + s.lock.queries
      case In(_, Edit) => 3
      case In(_, Mark) => 2
      case In(_, Unlock(_)) => 1
      case _ => 0
  }

  /** Steps for the notification the dispatcher has in hand. */
  function CurrentWork(s: State, bound: nat): nat {
    match s.run
    case Idle => 0
    case Locking(_) => 2 * bound + 7
    case Parked(_) => bound + 2 + WriterWork(s)
    case Walking(_, left) => 1 + |left|
    case Stopped => 0
  }

  /** Steps for one whole notification, with at most `bound` registered clients and queries. */
  function Round(bound: nat): nat {
    2 * bound + 8
  }

  function Rounds(k: nat, bound: nat): nat {
    if k == 0 then 0 else Round(bound) + Rounds(k - 1, bound)
  }

  /** Notifications still to be taken from the queue, up to and including this one. */
  function Ahead(s: State, ticket: nat): nat {
    if ticket < Dequeued(s) then 0 else ticket + 1 - Dequeued(s)
  }

  function Rank(s: State, ticket: nat, bound: nat): nat {
    if Delivered(s, ticket) then 0 else Rounds(Ahead(s, ticket), bound) + CurrentWork(s, bound)
  }

  predicate WithinBound(s: State, bound: nat) {
    |Everyone(s.clients)| <= bound && s.lock.queries <= bound
  }

  lemma TargetsWithinBound(s: State, userID: UserId, bound: nat)
    requires WithinBound(s, bound)
    ensures |Targets(s.clients, userID)| <= bound
  {
    SubsetSize(Targets(s.clients, userID), Everyone(s.clients));
  }

  // ------------------------------------------------- how one step changes the measure

  lemma DequeueRank(s: State, a: Action, ticket: nat, bound: nat)
    requires DispatchInv(s) && Enabled(s, a) && a.Dispatch? && s.run.Idle?
    requires ticket < |s.log.posted| && !Delivered(s, ticket)
    ensures Rank(Apply(s, a), ticket, bound) < Rank(s, ticket, bound)
  {
    assert Dequeued(Apply(s, a)) == Dequeued(s) + 1;
    assert Ahead(s, ticket) == Ahead(Apply(s, a), ticket) + 1;
  }

  lemma LockingRank(s: State, a: Action, ticket: nat, bound: nat)
    requires RegistryInv(s) && DispatchInv(s) && Enabled(s, a) && a.Dispatch? && s.run.Locking?
    requires ticket < |s.log.posted| && !Delivered(s, ticket) && WithinBound(s, bound)
    ensures Rank(Apply(s, a), ticket, bound) < Rank(s, ticket, bound)
  {
    TargetsWithinBound(s, s.run.n.userID, bound);
  }

  lemma WalkingRank(s: State, a: Action, ticket: nat, bound: nat)
    requires DispatchInv(s) && Enabled(s, a) && (a.Dispatch? || a.Visit?) && s.run.Walking?
    requires ticket < |s.log.posted| && !Delivered(s, ticket)
    ensures Rank(Apply(s, a), ticket, bound) < Rank(s, ticket, bound)
  {
  }

  /** The holder unlocks, and lets the parked dispatcher in. */
  lemma UnlockRank(s: State, c: ClientId, ticket: nat, bound: nat)
    requires DispatchInv(s) && Enabled(s, Step(c)) && s.run.Parked? && s.lock.writer == Some(c)
    requires s.conns[c].pc.In? && s.conns[c].pc.at.Unlock?
    requires ticket < |s.log.posted| && !Delivered(s, ticket) && WithinBound(s, bound)
    ensures Rank(Apply(s, Step(c)), ticket, bound) < Rank(s, ticket, bound)
  {
    TargetsWithinBound(s, s.run.n.userID, bound);
    WalkBegins(s, Step(c));
    StepDeliveriesLog(s, c);
  }

  /** Any other step of the announced writer brings the unlocking nearer. */
  lemma WriterAdvances(s: State, c: ClientId)
    requires LockInv(s) && Enabled(s, Step(c)) && s.lock.writer == Some(c)
    requires s.conns[c].pc.In? && !s.conns[c].pc.at.Unlock?
    ensures Apply(s, Step(c)).lock == s.lock && WriterWork(Apply(s, Step(c))) < WriterWork(s)
  {
  }

  lemma HolderRank(s: State, c: ClientId, ticket: nat, bound: nat)
    requires LockInv(s) && DispatchInv(s) && Enabled(s, Step(c))
    requires s.run.Parked? && s.lock.writer == Some(c)
    requires ticket < |s.log.posted| && !Delivered(s, ticket) && WithinBound(s, bound)
    ensures Rank(Apply(s, Step(c)), ticket, bound) < Rank(s, ticket, bound)
  {
    if s.conns[c].pc.at.Unlock? {
      UnlockRank(s, c, ticket, bound);
    } else {
      WriterAdvances(s, c);
      PostedLog(s, Step(c));
      StepDeliveriesLog(s, c);
      StepLeavesHand(s, c);
    }
  }

  lemma QueryRank(s: State, a: Action, ticket: nat, bound: nat)
    requires LockInv(s) && DispatchInv(s) && Enabled(s, a) && a.ExitQuery? && s.run.Parked?
    requires ticket < |s.log.posted| && !Delivered(s, ticket)
    ensures Rank(Apply(s, a), ticket, bound) < Rank(s, ticket, bound)
  {
    assert s.conns[s.lock.writer.value].pc.at.Wait?;
  }

  /** What the measure looks at, as far as another goroutine's step is concerned. */
  lemma RankFrame(s: State, t: State, ticket: nat, bound: nat)
    requires DispatchInv(s) && ticket < |s.log.posted|
    requires t.run == s.run && |t.log.deliveries| == |s.log.deliveries| && Dequeued(t) == Dequeued(s)
    requires s.run.Parked? ==> WriterWork(t) == WriterWork(s)
    ensures Rank(t, ticket, bound) == Rank(s, ticket, bound)
  {
  }

  lemma BystanderRank(s: State, c: ClientId, ticket: nat, bound: nat)
    requires LockInv(s) && DispatchInv(s) && Enabled(s, Step(c)) && !Helps(s, Step(c))
    requires ticket < |s.log.posted|
    ensures Rank(Apply(s, Step(c)), ticket, bound) == Rank(s, ticket, bound)
  {
    PostedLog(s, Step(c));
    DeliveriesLog(s, Step(c));
    GoroutineLeavesTraffic(s, c);
    RankFrame(s, Apply(s, Step(c)), ticket, bound);
  }

  lemma OtherRank(s: State, a: Action, ticket: nat, bound: nat)
    requires LockInv(s) && DispatchInv(s) && Enabled(s, a) && !Helps(s, a) && !a.Cancel? && !a.Step?
    requires ticket < |s.log.posted|
    ensures Rank(Apply(s, a), ticket, bound) == Rank(s, ticket, bound)
  {
    PostedLog(s, a);
    DeliveriesLog(s, a);
    RankFrame(s, Apply(s, a), ticket, bound);
  }

  lemma RankStep(s: State, a: Action, ticket: nat, bound: nat)
    requires Inv(s) && DispatchInv(s) && Enabled(s, a) && !a.Cancel?
    requires ticket < |s.log.posted| && !Delivered(s, ticket) && WithinBound(s, bound)
    ensures Rank(Apply(s, a), ticket, bound) + (if Helps(s, a) then 1 else 0) <= Rank(s, ticket, bound)
  {
    if !Helps(s, a) {
      if a.Step? {
        BystanderRank(s, a.c, ticket, bound);
      } else {
        OtherRank(s, a, ticket, bound);
      }
    } else if a.Step? {
      HolderRank(s, a.c, ticket, bound);
    } else if a.ExitQuery? {
      QueryRank(s, a, ticket, bound);
    } else if s.run.Idle? {
      DequeueRank(s, a, ticket, bound);
    } else if s.run.Locking? {
      LockingRank(s, a, ticket, bound);
    } else {
      WalkingRank(s, a, ticket, bound);
    }
  }

  // ------------------------------------------------------------------- theorems

  /** A goroutine that owes a presence broadcast, and so may block on the full
      queue, holds no lock. */
  lemma BlockedHoldsNoLock(schedule: seq<Action>, c: ClientId)
    requires Feasible(Init(), schedule) && c in Exec(Init(), schedule).conns
    requires Exec(Init(), schedule).conns[c].pc.In? && Exec(Init(), schedule).conns[c].pc.at.Post?
    ensures Exec(Init(), schedule).lock.writer != Some(c)
  {
    Reached(schedule);
  }

  /** While the context is not cancelled and something is queued or in hand,
      a helping step is enabled. */
  lemma SomeoneCanHelp(schedule: seq<Action>) returns (a: Action)
    requires Feasible(Init(), schedule) && !Exec(Init(), schedule).run.Stopped?
    requires Exec(Init(), schedule).notifyCh != [] || !Exec(Init(), schedule).run.Idle?
    ensures Enabled(Exec(Init(), schedule), a) && Helps(Exec(Init(), schedule), a) && !a.Cancel?
  {
    Reached(schedule);
    var s := Exec(Init(), schedule);
    if s.run.Walking? && s.run.left != {} {
      var c :| c in s.run.left;
      a := Visit(c);
    } else if s.run.Parked? {
      var c := s.lock.writer.value;
      a := if s.conns[c].pc.at.Wait? && s.lock.queries > 0 then ExitQuery else Step(c);
    } else {
      a := Dispatch;
    }
  }

  /** The helping steps of a schedule. */
  function HelpCount(s: State, schedule: seq<Action>): nat
    requires Feasible(s, schedule)
    decreases schedule
  {
    if schedule == [] then 0
    else (if Helps(s, schedule[0]) then 1 else 0) + HelpCount(Apply(s, schedule[0]), schedule[1..])
  }

  predicate AlwaysWithin(s: State, schedule: seq<Action>, bound: nat)
    requires Feasible(s, schedule)
    decreases schedule
  {
    WithinBound(s, bound) && (schedule == [] || AlwaysWithin(Apply(s, schedule[0]), schedule[1..], bound))
  }

  lemma DeliveredStays(s: State, a: Action, ticket: nat)
    requires DispatchInv(s) && Enabled(s, a) && Delivered(s, ticket)
    ensures Delivered(Apply(s, a), ticket)
  {
    DeliveriesLog(s, a);
  }

  /** A schedule that leaves the notification undelivered has used up no more
      helping steps than the measure allows. */
  lemma {:induction false} HelpIsBounded(s: State, schedule: seq<Action>, ticket: nat, bound: nat)
    requires HistoryInv(s) && Feasible(s, schedule) && AlwaysWithin(s, schedule, bound)
    requires ticket < |s.log.posted| && forall i :: 0 <= i < |schedule| ==> !schedule[i].Cancel?
    ensures Delivered(Exec(s, schedule), ticket)
      || (!Delivered(s, ticket) && HelpCount(s, schedule) <= Rank(s, ticket, bound))
    decreases schedule
  {
    if schedule != [] {
      var t := Apply(s, schedule[0]);
      HistoryStep(s, schedule[0]);
      PostedLog(s, schedule[0]);
      HelpIsBounded(t, schedule[1..], ticket, bound);
      if Delivered(s, ticket) {
        DeliveredStays(s, schedule[0], ticket);
      } else {
        RankStep(s, schedule[0], ticket, bound);
      }
    }
  }

  lemma {:induction false} RoundsProduct(k: nat, bound: nat)
    ensures Rounds(k, bound) == k * Round(bound)
  {
    if k > 0 {
      RoundsProduct(k - 1, bound);
    }
  }

  lemma {:induction false} RoundsMonotone(j: nat, k: nat, bound: nat)
    requires j <= k
    ensures Rounds(j, bound) <= Rounds(k, bound)
  {
    if j < k {
      RoundsMonotone(j, k - 1, bound);
    }
  }

  lemma RankBound(s: State, ticket: nat, bound: nat)
    requires Inv(s) && DispatchInv(s) && WithinBound(s, bound) && ticket < |s.log.posted|
    ensures Rank(s, ticket, bound) < (NOTIFY_CAPACITY + 1) * Round(bound)
  {
    RoundsMonotone(Ahead(s, ticket), NOTIFY_CAPACITY, bound);
    RoundsProduct(NOTIFY_CAPACITY, bound);
    if s.run.Walking? {
      TargetsWithinBound(s, s.run.n.userID, bound);
      SubsetSize(s.run.left, Targets(s.clients, s.run.n.userID));
    }
  }

  /** With at most `bound` registered clients and `bound` presence queries at any time, and the
      context not cancelled, a queued notification is delivered after at most
      257 * (2 * bound + 8) helping steps, whatever else is scheduled. */
  lemma NotificationIsDelivered(prefix: seq<Action>, schedule: seq<Action>, ticket: nat, bound: nat)
    requires Feasible(Init(), prefix) && Feasible(Exec(Init(), prefix), schedule)
    requires ticket < |Exec(Init(), prefix).log.posted|
    requires AlwaysWithin(Exec(Init(), prefix), schedule, bound)
    requires forall i :: 0 <= i < |schedule| ==> !schedule[i].Cancel?
    requires HelpCount(Exec(Init(), prefix), schedule) >= 257 * (2 * bound + 8)
    ensures Delivered(Exec(Exec(Init(), prefix), schedule), ticket)
  {
    Reached(prefix);
    HelpIsBounded(Exec(Init(), prefix), schedule, ticket, bound);
    RankBound(Exec(Init(), prefix), ticket, bound);
  }

  /** Once the context is cancelled nothing is dispatched any more: the
      queue only fills up, and at 256 every further sender blocks for good. */
  lemma {:induction false} CancelledStops(s: State, schedule: seq<Action>)
    requires Feasible(s, schedule) && s.run.Stopped?
    ensures var t := Exec(s, schedule);
      && t.run.Stopped? && s.notifyCh <= t.notifyCh && t.log.deliveries == s.log.deliveries
      && (|s.notifyCh| == 256 ==> t.notifyCh == s.notifyCh)
    decreases schedule
  {
    if schedule != [] {
      PostedLog(s, schedule[0]);
      DeliveriesLog(s, schedule[0]);
      StoppedStep(s, schedule[0]);
      CancelledStops(Apply(s, schedule[0]), schedule[1..]);
    }
  }

  lemma StoppedStep(s: State, a: Action)
    requires Enabled(s, a) && s.run.Stopped?
    ensures Apply(s, a).run.Stopped? && (PostedBy(s, a) != [] ==> |s.notifyCh| < NOTIFY_CAPACITY)
  {
  }

  /** The queue does fill up: n handlers can send while nothing is dispatched, for any
      n up to 256, and then the next one blocks. */
  lemma {:induction false} QueueFills(n: nat, event: Notify) returns (schedule: seq<Action>)
    requires n <= 256 && !event.event.Presence?
    ensures Feasible(Init(), schedule) && |schedule| == n
    ensures forall i :: 0 <= i < |schedule| ==> schedule[i] == Send(event)
    ensures |Exec(Init(), schedule).notifyCh| == n
    ensures Enabled(Exec(Init(), schedule), Send(event)) <==> n < 256
  {
    schedule := [];
    if n > 0 {
      var shorter := QueueFills(n - 1, event);
      SendAppends(Init(), shorter, event);
      schedule := shorter + [Send(event)];
    }
  }

  lemma {:induction false} SendAppends(s: State, schedule: seq<Action>, n: Notify)
    requires Feasible(s, schedule) && Enabled(Exec(s, schedule), Send(n))
    ensures Feasible(s, schedule + [Send(n)])
    ensures Exec(s, schedule + [Send(n)]) == Enqueue(Exec(s, schedule), n)
    decreases schedule
  {
    if schedule == [] {
      assert (schedule + [Send(n)])[1..] == [];
    } else {
      assert (schedule + [Send(n)])[1..] == schedule[1..] + [Send(n)];
      SendAppends(Apply(s, schedule[0]), schedule[1..], n);
    }
  }

  // ------------------------------------------------------------ the writer's turn

  /** Steps of active readers before an announced writer has the lock to itself. */
  function WaitWork(s: State): nat {
    s.lock.queries + if s.run.Walking? then |s.run.left| + 1 else 0
  }

  /** Steps by which active readers approach their unlocking. */
  predicate LetsIn(s: State, a: Action) {
    a.ExitQuery? || a.Visit? || (a.Dispatch? && s.run.Walking?)
  }

  /** c has announced itself and waits for the active readers. */
  predicate Waits(s: State, c: ClientId) {
    c in s.conns && c in s.channels && s.conns[c].pc.In? && s.conns[c].pc.at.Wait?
  }

  lemma ReaderLeaves(s: State, a: Action, c: ClientId)
    requires LockInv(s) && Waits(s, c) && Enabled(s, a) && LetsIn(s, a)
    requires a.Visit? ==> a.c in s.channels
    ensures Waits(Apply(s, a), c) && WaitWork(Apply(s, a)) + 1 == WaitWork(s)
  {
  }

  /** Nobody else can take the lock, and new readers are parked. */
  lemma NobodyOvertakes(s: State, a: Action, c: ClientId)
    requires LockInv(s) && Waits(s, c) && Enabled(s, a) && !LetsIn(s, a) && a != Step(c)
    ensures Waits(Apply(s, a), c) && WaitWork(Apply(s, a)) == WaitWork(s)
  {
    if a.Step? {
      assert !Announced(s.conns[a.c].pc);
      StepKeepsWait(s, a.c, c);
    }
  }

  lemma StepKeepsWait(s: State, d: ClientId, c: ClientId)
    requires LockInv(s) && Waits(s, c) && Enabled(s, Step(d)) && d != c && !Announced(s.conns[d].pc)
    ensures Waits(Apply(s, Step(d)), c) && WaitWork(Apply(s, Step(d))) == WaitWork(s)
  {
  }

  /** Until the writer can go on, some active reader can. */
  lemma SomeReaderCanLeave(schedule: seq<Action>, c: ClientId) returns (a: Action)
    requires Feasible(Init(), schedule) && Waits(Exec(Init(), schedule), c)
    ensures var s := Exec(Init(), schedule);
      Enabled(s, a) && (if WaitWork(s) == 0 then a == Step(c) else LetsIn(s, a))
  {
    var s := Exec(Init(), schedule);
    if WaitWork(s) == 0 {
      a := Step(c);
    } else if s.lock.queries > 0 {
      a := ExitQuery;
    } else if s.run.left == {} {
      a := Dispatch;
    } else {
      var d :| d in s.run.left;
      a := Visit(d);
    }
  }

  function LeaveCount(s: State, schedule: seq<Action>): nat
    requires Feasible(s, schedule)
    decreases schedule
  {
    if schedule == [] then 0
    else (if LetsIn(s, schedule[0]) then 1 else 0) + LeaveCount(Apply(s, schedule[0]), schedule[1..])
  }

  lemma {:induction false} WaitExec(s: State, schedule: seq<Action>, c: ClientId)
    requires Inv(s) && Feasible(s, schedule) && Waits(s, c)
    requires forall i :: 0 <= i < |schedule| ==> schedule[i] != Step(c)
    ensures Waits(Exec(s, schedule), c) && WaitWork(Exec(s, schedule)) + LeaveCount(s, schedule) == WaitWork(s)
    decreases schedule
  {
    if schedule != [] {
      var a := schedule[0];
      InvStep(s, a);
      if LetsIn(s, a) {
        if a.Visit? {
          TargetsAreRegistered(s, s.run.n.userID);
        }
        ReaderLeaves(s, a, c);
      } else {
        NobodyOvertakes(s, a, c);
      }
      WaitExec(Apply(s, a), schedule[1..], c);
    }
  }

  lemma WaitIsOver(s: State, c: ClientId)
    requires Waits(s, c)
    ensures Enabled(s, Step(c)) <==> WaitWork(s) == 0
  {
  }

  /** An announced register or unregister waits for exactly the steps that the
      readers active at that moment still have to make, whatever else is scheduled;
      then its next step is enabled. */
  lemma WriterGetsLock(prefix: seq<Action>, schedule: seq<Action>, c: ClientId)
    requires Feasible(Init(), prefix) && Feasible(Exec(Init(), prefix), schedule)
    requires Waits(Exec(Init(), prefix), c) && forall i :: 0 <= i < |schedule| ==> schedule[i] != Step(c)
    ensures var s := Exec(Init(), prefix);
      var t := Exec(s, schedule);
      && LeaveCount(s, schedule) <= WaitWork(s)
      && (LeaveCount(s, schedule) == WaitWork(s) <==> Enabled(t, Step(c)))
  {
    Reached(prefix);
    WaitExec(Exec(Init(), prefix), schedule, c);
    WaitIsOver(Exec(Exec(Init(), prefix), schedule), c);
  }
}
