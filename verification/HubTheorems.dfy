/** The guarantees of the realtime hub, over every feasible schedule. */
module HubTheorems {
  import opened Options
  import opened Registry
  import opened HubProtocol
  import opened HubSafety
  import opened HubHistory

  ghost predicate HistoryInv(s: State) {
    Inv(s) && FlipInv(s) && PresenceInv(s) && DispatchInv(s) && ClientInv(s)
  }

  lemma HistoryStep(s: State, a: Action)
    requires HistoryInv(s) && Enabled(s, a)
    ensures HistoryInv(Apply(s, a))
  {
    InvStep(s, a);
    FlipStep(s, a);
    if a.Step? {
      PresenceStep(s, a.c);
    } else {
      PresenceOther(s, a);
    }
    if a.Visit? {
      TargetsAreRegistered(s, s.run.n.userID);
    }
    DispatchStep(s, a);
    ClientStep(s, a);
  }

  lemma {:induction false} HistoryExec(s: State, schedule: seq<Action>)
    requires HistoryInv(s) && Feasible(s, schedule)
    ensures HistoryInv(Exec(s, schedule))
    decreases schedule
  {
    if schedule != [] {
      HistoryStep(s, schedule[0]);
      HistoryExec(Apply(s, schedule[0]), schedule[1..]);
    }
  }

  lemma InitHistory()
    ensures HistoryInv(Init())
  {
    forall u, b
      ensures Owing(Init(), u, b) == {}
    {
    }
  }

  lemma Reached(schedule: seq<Action>)
    requires Feasible(Init(), schedule)
    ensures HistoryInv(Exec(Init(), schedule))
  {
    InitHistory();
    HistoryExec(Init(), schedule);
  }

  // ------------------------------------------------- the same facts of one state

  lemma WalkFreezes(s: State, a: Action)
    requires LockInv(s) && s.run.Walking? && Enabled(s, a)
    ensures Apply(s, a).clients == s.clients
  {
  }

  lemma LastFlip(flips: seq<bool>)
    requires Alternates(flips)
    ensures |flips| % 2 == 1 <==> flips != [] && flips[|flips| - 1]
  {
  }

  lemma OrderedSoFar(s: State, c: ClientId)
    requires ClientInv(s) && WalkInv(s) && c in s.channels
    ensures Subsequence(s.channels[c].received + s.channels[c].queue, AddressedTo(s.log.deliveries, c))
    ensures |s.channels[c].received| + |s.channels[c].queue| + s.channels[c].dropped
      + (if s.run.Walking? && c in s.run.left then 1 else 0) == |AddressedTo(s.log.deliveries, c)|
  {
    var ds, ch := s.log.deliveries, s.channels[c];
    if s.run.Walking? && c in s.run.left {
      AddressedAppend(ds[..|ds| - 1], ds[|ds| - 1], c);
      assert ds[..|ds| - 1] + [ds[|ds| - 1]] == ds;
      SubsequenceAppend(ch.received + ch.queue, Settled(s, c), s.run.n.event);
    }
  }

  lemma VisitDrops(s: State, d: ClientId, c: ClientId)
    requires Enabled(s, Visit(d)) && c in s.channels
    requires d in s.channels && !s.channels[d].closed && |s.channels[d].queue| <= SEND_BUFFER
    ensures var t := VisitClient(s, d);
      c in t.channels && t.channels[c].dropped
        == s.channels[c].dropped + if d == c && |s.channels[c].queue| == SEND_BUFFER then 1 else 0
  {
  }

  lemma OthersDropNothing(s: State, a: Action, c: ClientId)
    requires s.channels.Keys == s.conns.Keys && Enabled(s, a) && !a.Visit? && c in s.channels
    ensures c in Apply(s, a).channels && Apply(s, a).channels[c].dropped == s.channels[c].dropped
  {
    if a.Step? {
      MoverDropsNothing(s, a.c, c);
    }
  }

  lemma MoverDropsNothing(s: State, d: ClientId, c: ClientId)
    requires Enabled(s, Step(d)) && c in s.channels
    ensures c in Apply(s, Step(d)).channels && Apply(s, Step(d)).channels[c].dropped == s.channels[c].dropped
  {
  }

  lemma DropNeedsFullBuffer(s: State, a: Action, c: ClientId)
    requires s.channels.Keys == s.conns.Keys && Enabled(s, a) && c in s.channels
    requires a.Visit? ==> a.c in s.channels && !s.channels[a.c].closed && |s.channels[a.c].queue| <= SEND_BUFFER
    ensures c in Apply(s, a).channels && s.channels[c].dropped <= Apply(s, a).channels[c].dropped
    ensures s.channels[c].dropped < Apply(s, a).channels[c].dropped
      <==> a == Visit(c) && |s.channels[c].queue| == SEND_BUFFER
  {
    if a.Visit? {
      VisitDrops(s, a.c, c);
    } else {
      OthersDropNothing(s, a, c);
    }
  }

  // ------------------------------------------------------------------- theorems

  /** No interleaving sends on, or closes, a closed channel: every client a
      delivery still has to visit is registered and its channel is open. */
  lemma ChannelSafety(schedule: seq<Action>)
    requires Feasible(Init(), schedule)
    ensures var s := Exec(Init(), schedule);
      && !s.panicked
      && (s.run.Walking? ==> forall c :: c in s.run.left ==>
            c in s.conns && Registered(s.conns[c].pc) && c in s.channels && !s.channels[c].closed)
  {
    Reached(schedule);
    var s := Exec(Init(), schedule);
    if s.run.Walking? {
      TargetsAreRegistered(s, s.run.n.userID);
    }
  }

  /** The read lock freezes the registry for the whole of a delivery. */
  lemma RegistryIsFrozen(schedule: seq<Action>, a: Action)
    requires Feasible(Init(), schedule) && Exec(Init(), schedule).run.Walking?
    requires Enabled(Exec(Init(), schedule), a)
    ensures Apply(Exec(Init(), schedule), a).clients == Exec(Init(), schedule).clients
  {
    Reached(schedule);
    WalkFreezes(Exec(Init(), schedule), a);
  }

  /** Between critical sections the online set is the key set of the registry,
      no inner set is empty, and the loops of a delivery range over exactly the
      live clients it is meant for. */
  lemma RegistryShape(schedule: seq<Action>, userID: UserId)
    requires Feasible(Init(), schedule)
    ensures var s := Exec(Init(), schedule);
      && (forall u :: u in s.clients ==> s.clients[u] != {})
      && (forall c :: c in Targets(s.clients, userID) <==>
            c in s.conns && Registered(s.conns[c].pc) && (userID == NIL || s.conns[c].user == userID))
      && (s.lock.writer.None? ==> s.clients.Keys == s.online)
  {
    Reached(schedule);
    var s := Exec(Init(), schedule);
    TargetsAreRegistered(s, userID);
    assert s.lock.writer.None? ==> forall u :: u in s.clients.Keys <==> u in s.online;
  }

  /** Presence events of a user, posted or still owed: online minus offline is
      one exactly while the user is online. */
  lemma PresenceAccounting(schedule: seq<Action>, u: UserId)
    requires Feasible(Init(), schedule)
    ensures var s := Exec(Init(), schedule);
      multiset(s.log.posted)[PresenceNotify(u, true)] + |Owing(s, u, true)|
      == multiset(s.log.posted)[PresenceNotify(u, false)] + |Owing(s, u, false)| + if u in s.online then 1 else 0
  {
    Reached(schedule);
  }

  /** In lock order a user's flips alternate, starting with online. */
  lemma FlipsAlternate(schedule: seq<Action>, u: UserId)
    requires Feasible(Init(), schedule)
    ensures var s := Exec(Init(), schedule);
      && Alternates(FlipsOf(s.log.flips, u))
      && (u in s.online <==> FlipsOf(s.log.flips, u) != [] && FlipsOf(s.log.flips, u)[|FlipsOf(s.log.flips, u)| - 1])
  {
    Reached(schedule);
    var s := Exec(Init(), schedule);
    assert FlipsFit(s.log.flips, u, u in s.online);
    LastFlip(FlipsOf(s.log.flips, u));
  }

  /** Deliveries happen in the order in which notifications were queued, each
      to exactly the matching clients registered at that moment. */
  lemma DispatchOrder(schedule: seq<Action>)
    requires Feasible(Init(), schedule)
    ensures var s := Exec(Init(), schedule);
      && |s.log.deliveries| <= |s.log.posted|
      && (forall i :: 0 <= i < |s.log.deliveries| ==> s.log.deliveries[i].n == s.log.posted[i])
  {
    Reached(schedule);
  }

  /** The delivery is addressed to exactly the matching clients registered in s. */
  ghost predicate ToRegistered(s: State, d: Delivery) {
    forall c :: c in d.to <==>
      c in s.conns && Registered(s.conns[c].pc) && (d.n.userID == NIL || s.conns[c].user == d.n.userID)
  }

  lemma NewDelivery(s: State, a: Action)
    requires Inv(s) && Enabled(s, a)
    ensures DeliveredBy(s, a) == [] || (|DeliveredBy(s, a)| == 1 && ToRegistered(Apply(s, a), DeliveredBy(s, a)[0]))
  {
    if StartsWalk(s, a) {
      InvStep(s, a);
      WalkBegins(s, a);
      TargetsAreRegistered(Apply(s, a), s.run.n.userID);
    }
  }

  lemma DeliveredToRegistered(schedule: seq<Action>, a: Action)
    requires Feasible(Init(), schedule) && Enabled(Exec(Init(), schedule), a)
    ensures var s := Exec(Init(), schedule);
      var t := Apply(s, a);
      t.log.deliveries == s.log.deliveries
      || exists d :: t.log.deliveries == s.log.deliveries + [d] && ToRegistered(t, d)
  {
    Reached(schedule);
    var s := Exec(Init(), schedule);
    DeliveriesLog(s, a);
    NewDelivery(s, a);
    if DeliveredBy(s, a) != [] {
      assert DeliveredBy(s, a) == [DeliveredBy(s, a)[0]];
    } else {
      assert s.log.deliveries + [] == s.log.deliveries;
    }
  }

  /** What a client received followed by what it has queued is a subsequence,
      in dispatch order, of the events addressed to it; accepted plus dropped
      plus the one a walk is still bringing is addressed. */
  lemma OrderedDelivery(schedule: seq<Action>, c: ClientId)
    requires Feasible(Init(), schedule) && c in Exec(Init(), schedule).channels
    ensures var s := Exec(Init(), schedule);
      var ch := s.channels[c];
      && Subsequence(ch.received + ch.queue, AddressedTo(s.log.deliveries, c))
      && |ch.received| + |ch.queue| + ch.dropped + (if s.run.Walking? && c in s.run.left then 1 else 0)
         == |AddressedTo(s.log.deliveries, c)|
      && |ch.queue| <= 64
  {
    Reached(schedule);
    OrderedSoFar(Exec(Init(), schedule), c);
  }

  /** An event is dropped only by a delivery that finds 64 events queued. */
  lemma DropsOnlyWhenFull(schedule: seq<Action>, a: Action, c: ClientId)
    requires Feasible(Init(), schedule) && Enabled(Exec(Init(), schedule), a)
    requires c in Exec(Init(), schedule).channels
    ensures var s := Exec(Init(), schedule);
      var t := Apply(s, a);
      && c in t.channels
      && s.channels[c].dropped <= t.channels[c].dropped
      && (s.channels[c].dropped < t.channels[c].dropped <==> a == Visit(c) && |s.channels[c].queue| == 64)
  {
    Reached(schedule);
    var s := Exec(Init(), schedule);
    if a.Visit? {
      TargetsAreRegistered(s, s.run.n.userID);
    }
    DropNeedsFullBuffer(s, a, c);
  }

  lemma {:induction false} EmbeddingIsIdentity(f: seq<nat>, a: seq<Event>, b: seq<Event>, i: nat)
    requires Embeds(f, a, b) && |a| == |b| && i < |f|
    ensures f[i] == i
  {
    FromBelow(f, a, b, i);
    FromAbove(f, a, b, i);
  }

  lemma {:induction false} FromBelow(f: seq<nat>, a: seq<Event>, b: seq<Event>, i: nat)
    requires Embeds(f, a, b) && i < |f|
    ensures f[i] >= i
  {
    if i > 0 {
      FromBelow(f, a, b, i - 1);
      assert f[i - 1] < f[i];
    }
  }

  lemma {:induction false} FromAbove(f: seq<nat>, a: seq<Event>, b: seq<Event>, i: nat)
    requires Embeds(f, a, b) && i < |f|
    ensures f[i] + |f| <= |b| + i
    decreases |f| - i
  {
    if i + 1 < |f| {
      FromAbove(f, a, b, i + 1);
      assert f[i] < f[i + 1];
    }
  }

  /** A client that lost nothing got everything, in order. */
  lemma NothingDroppedNothingLost(schedule: seq<Action>, c: ClientId)
    requires Feasible(Init(), schedule) && c in Exec(Init(), schedule).channels
    requires Exec(Init(), schedule).channels[c].dropped == 0 && !Exec(Init(), schedule).run.Walking?
    ensures var s := Exec(Init(), schedule);
      s.channels[c].received + s.channels[c].queue == AddressedTo(s.log.deliveries, c)
  {
    OrderedDelivery(schedule, c);
    var s := Exec(Init(), schedule);
    var a, b := s.channels[c].received + s.channels[c].queue, AddressedTo(s.log.deliveries, c);
    var f: seq<nat> :| Embeds(f, a, b);
    forall i | 0 <= i < |a|
      ensures a[i] == b[i]
    {
      EmbeddingIsIdentity(f, a, b, i);
    }
  }
}
