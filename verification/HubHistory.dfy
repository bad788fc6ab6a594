/** What the history of every hub schedule looks like: who was online when, and
    what each client was sent. */
module HubHistory {
  import opened Counting
  import opened Options
  import opened Registry
  import opened HubProtocol
  import opened HubSafety

  // -------------------------------------------- what one action adds to the log

  function FlippedBy(s: State, a: Action): seq<Flip>
    requires Enabled(s, a)
  {
    if a.Step? && s.conns[a.c].pc.In? && s.conns[a.c].pc.at.Mark? && Flips(s, s.conns[a.c].user, s.conns[a.c].pc.call)
    then [Flip(s.conns[a.c].user, s.conns[a.c].pc.call.Register?)] else []
  }

  function PostedBy(s: State, a: Action): seq<Notify>
    requires Enabled(s, a)
  {
    if a.Send? then [a.n]
    else if a.Step? && s.conns[a.c].pc.In? && s.conns[a.c].pc.at.Post?
    then [PresenceNotify(s.conns[a.c].user, s.conns[a.c].pc.call.Register?)] else []
  }

  /** deliver gets the read lock: at once, or from the writer that unlocks. */
  predicate StartsWalk(s: State, a: Action)
    requires Enabled(s, a)
  {
    || (a.Dispatch? && s.run.Locking? && s.lock.writer.None?)
    || (a.Step? && s.run.Parked? && s.conns[a.c].pc.In? && s.conns[a.c].pc.at.Unlock?)
  }

  function DeliveredBy(s: State, a: Action): seq<Delivery>
    requires Enabled(s, a)
  {
    if StartsWalk(s, a) then [Delivery(s.run.n, Targets(s.clients, s.run.n.userID))] else []
  }

  lemma FlipsLog(s: State, a: Action)
    requires Enabled(s, a)
    ensures Apply(s, a).log.flips == s.log.flips + FlippedBy(s, a)
  {
    if a.Step? {
      StepFlipsLog(s, a.c);
    }
  }

  lemma StepFlipsLog(s: State, c: ClientId)
    requires Enabled(s, Step(c))
    ensures Apply(s, Step(c)).log.flips == s.log.flips + FlippedBy(s, Step(c))
    ensures Apply(s, Step(c)).online ==
      if FlippedBy(s, Step(c)) == [] then s.online
      else if s.conns[c].pc.call.Register? then s.online + {s.conns[c].user} else s.online - {s.conns[c].user}
  {
  }

  lemma PostedLog(s: State, a: Action)
    requires Enabled(s, a)
    ensures Apply(s, a).log.posted == s.log.posted + PostedBy(s, a)
    ensures Apply(s, a).notifyCh ==
      (if a.Dispatch? && s.run.Idle? then s.notifyCh[1..] else s.notifyCh) + PostedBy(s, a)
  {
    if a.Step? {
      StepPostedLog(s, a.c);
    }
  }

  lemma StepPostedLog(s: State, c: ClientId)
    requires Enabled(s, Step(c))
    ensures Apply(s, Step(c)).log.posted == s.log.posted + PostedBy(s, Step(c))
    ensures Apply(s, Step(c)).notifyCh == s.notifyCh + PostedBy(s, Step(c))
  {
  }

  lemma DeliveriesLog(s: State, a: Action)
    requires Enabled(s, a)
    ensures Apply(s, a).log.deliveries == s.log.deliveries + DeliveredBy(s, a)
  {
    if a.Step? {
      StepDeliveriesLog(s, a.c);
    }
  }

  lemma StepDeliveriesLog(s: State, c: ClientId)
    requires Enabled(s, Step(c))
    ensures Apply(s, Step(c)).log.deliveries == s.log.deliveries + DeliveredBy(s, Step(c))
  {
  }

  // ----------------------------------------------------------------- presence

  /** Flips of one user, in lock order. */
  function FlipsOf(flips: seq<Flip>, u: UserId): seq<bool> {
    if flips == [] then []
    else
      var last := flips[|flips| - 1];
      FlipsOf(flips[..|flips| - 1], u) + if last.user == u then [last.online] else []
  }

  ghost predicate Alternates(bs: seq<bool>) {
    forall i :: 0 <= i < |bs| ==> (bs[i] <==> i % 2 == 0)
  }

  /** The goroutine has flipped its user's presence and still has to post it. */
  predicate Owes(pc: Pc, online: bool) {
    pc.In? && (pc.call.Register? <==> online) && (pc.at == Unlock(true) || pc.at.Post?)
  }

  ghost function Owing(s: State, u: UserId, online: bool): set<ClientId> {
    set c | c in s.conns && s.conns[c].user == u && Owes(s.conns[c].pc, online)
  }

  function PresenceNotify(u: UserId, online: bool): Notify {
    Notify(NIL, Presence(u, online))
  }

  /** The flips of one user alternate, and leave the user where `present` says. */
  ghost predicate FlipsFit(flips: seq<Flip>, u: UserId, present: bool) {
    && Alternates(FlipsOf(flips, u))
    && (|FlipsOf(flips, u)| % 2 == 1 <==> present)
    && multiset(flips)[Flip(u, true)] == multiset(flips)[Flip(u, false)] + OneIf(present)
  }

  ghost predicate FlipInv(s: State) {
    forall u :: FlipsFit(s.log.flips, u, u in s.online)
  }

  ghost predicate PresenceInv(s: State) {
    forall u, b ::
      multiset(s.log.posted)[PresenceNotify(u, b)] + |Owing(s, u, b)| == multiset(s.log.flips)[Flip(u, b)]
  }

  lemma FlipsOfAppend(flips: seq<Flip>, f: Flip, u: UserId)
    ensures FlipsOf(flips + [f], u) == FlipsOf(flips, u) + if f.user == u then [f.online] else []
  {
    assert (flips + [f])[..|flips|] == flips;
  }

  lemma AlternatesAppend(bs: seq<bool>, b: bool)
    requires Alternates(bs) && (b <==> |bs| % 2 == 0)
    ensures Alternates(bs + [b])
  {
  }

  lemma CountAppend<T>(xs: seq<T>, y: T, x: T)
    ensures multiset(xs + [y])[x] == multiset(xs)[x] + OneIf(x == y)
  {
  }

  lemma FlipsFitAppend(flips: seq<Flip>, u: UserId, online: bool, v: UserId, present: bool)
    requires FlipsFit(flips, v, present) && (u == v ==> present != online)
    ensures FlipsFit(flips + [Flip(u, online)], v, if u == v then online else present)
  {
    FlipsOfAppend(flips, Flip(u, online), v);
    CountAppend(flips, Flip(u, online), Flip(v, true));
    CountAppend(flips, Flip(u, online), Flip(v, false));
    if u == v {
      AlternatesAppend(FlipsOf(flips, v), online);
    } else {
      assert FlipsOf(flips, v) + [] == FlipsOf(flips, v);
    }
  }

  lemma FlipAppend(s: State, t: State, u: UserId, online: bool)
    requires FlipInv(s) && (online <==> u !in s.online)
    requires t.log.flips == s.log.flips + [Flip(u, online)]
    requires t.online == if online then s.online + {u} else s.online - {u}
    ensures FlipInv(t)
  {
    forall v ensures FlipsFit(t.log.flips, v, v in t.online) {
      FlipsFitAppend(s.log.flips, u, online, v, v in s.online);
    }
  }

  lemma FlipQuiet(s: State, t: State)
    requires FlipInv(s) && t.log.flips == s.log.flips && t.online == s.online
    ensures FlipInv(t)
  {
  }

  lemma FlipStep(s: State, a: Action)
    requires FlipInv(s) && Enabled(s, a)
    ensures FlipInv(Apply(s, a))
  {
    FlipsLog(s, a);
    if a.Step? {
      FlipMove(s, a.c);
    } else {
      BystanderLeavesRegistry(s, a);
      assert s.log.flips + [] == s.log.flips;
      FlipQuiet(s, Apply(s, a));
    }
  }

  lemma FlipMove(s: State, c: ClientId)
    requires FlipInv(s) && Enabled(s, Step(c))
    ensures FlipInv(Apply(s, Step(c)))
  {
    StepFlipsLog(s, c);
    if FlippedBy(s, Step(c)) == [] {
      assert s.log.flips + [] == s.log.flips;
      FlipQuiet(s, Apply(s, Step(c)));
    } else {
      FlipAppend(s, Apply(s, Step(c)), s.conns[c].user, s.conns[c].pc.call.Register?);
    }
  }

  /** Moving one goroutine changes at most its own membership in Owing. */
  lemma OwingMove(s: State, t: State, c: ClientId, pc: Pc, u: UserId, b: bool)
    requires Moves(s, t, c, pc)
    ensures Owing(t, u, b) ==
      if s.conns[c].user == u && Owes(pc, b) then Owing(s, u, b) + {c} else Owing(s, u, b) - {c}
  {
  }

  lemma OwingCount(s: State, t: State, c: ClientId, pc: Pc, u: UserId, b: bool)
    requires Moves(s, t, c, pc)
    ensures |Owing(t, u, b)| == |Owing(s, u, b)|
      + OneIf(s.conns[c].user == u && Owes(pc, b)) - OneIf(s.conns[c].user == u && Owes(s.conns[c].pc, b))
  {
    OwingMove(s, t, c, pc, u, b);
  }

  /** What one step of c's goroutine adds to the queue ... */
  lemma StepPosts(s: State, c: ClientId, u: UserId, b: bool)
    requires Enabled(s, Step(c))
    ensures var pc := s.conns[c].pc;
      multiset(Apply(s, Step(c)).log.posted)[PresenceNotify(u, b)] == multiset(s.log.posted)[PresenceNotify(u, b)]
        + OneIf(pc.In? && pc.at.Post? && s.conns[c].user == u && pc.call.Register? == b)
  {
    PostedLog(s, Step(c));
    var pc := s.conns[c].pc;
    if pc.In? && pc.at.Post? {
      CountAppend(s.log.posted, PresenceNotify(s.conns[c].user, pc.call.Register?), PresenceNotify(u, b));
    } else {
      assert s.log.posted + [] == s.log.posted;
    }
  }

  predicate FlipsNow(s: State, c: ClientId)
    requires c in s.conns
  {
    s.conns[c].pc.In? && s.conns[c].pc.at.Mark? && Flips(s, s.conns[c].user, s.conns[c].pc.call)
  }

  /** ... and to the flips. */
  lemma StepFlips(s: State, c: ClientId, u: UserId, b: bool)
    requires Enabled(s, Step(c))
    ensures var pc := s.conns[c].pc;
      multiset(Apply(s, Step(c)).log.flips)[Flip(u, b)] == multiset(s.log.flips)[Flip(u, b)]
        + OneIf(FlipsNow(s, c) && s.conns[c].user == u && pc.call.Register? == b)
  {
    FlipsLog(s, Step(c));
    var pc := s.conns[c].pc;
    if FlipsNow(s, c) {
      CountAppend(s.log.flips, Flip(s.conns[c].user, pc.call.Register?), Flip(u, b));
    } else {
      assert s.log.flips + [] == s.log.flips;
    }
  }

  /** A debt begins with the flip and ends with the post. */
  lemma StepOwes(s: State, c: ClientId, b: bool)
    requires Enabled(s, Step(c))
    ensures var pc := s.conns[c].pc;
      OneIf(Owes(NextPc(s, s.conns[c]), b)) + OneIf(pc.In? && pc.at.Post? && pc.call.Register? == b)
      == OneIf(Owes(pc, b)) + OneIf(FlipsNow(s, c) && pc.call.Register? == b)
  {
  }

  lemma PresenceStep(s: State, c: ClientId)
    requires PresenceInv(s) && Enabled(s, Step(c))
    ensures PresenceInv(Apply(s, Step(c)))
  {
    var t := Apply(s, Step(c));
    forall u, b
      ensures multiset(t.log.posted)[PresenceNotify(u, b)] + |Owing(t, u, b)| == multiset(t.log.flips)[Flip(u, b)]
    {
      StepPosts(s, c, u, b);
      StepFlips(s, c, u, b);
      StepOwes(s, c, b);
      OwingCount(s, t, c, NextPc(s, s.conns[c]), u, b);
    }
  }

  /** Whatever others post is no presence event. */
  lemma OtherPosts(s: State, a: Action, u: UserId, b: bool)
    requires Enabled(s, a) && !a.Step?
    ensures multiset(Apply(s, a).log.posted)[PresenceNotify(u, b)] == multiset(s.log.posted)[PresenceNotify(u, b)]
  {
    PostedLog(s, a);
    if a.Send? {
      CountAppend(s.log.posted, a.n, PresenceNotify(u, b));
    } else {
      assert s.log.posted + [] == s.log.posted;
    }
  }

  lemma OtherOwing(s: State, a: Action, u: UserId, b: bool)
    requires Enabled(s, a) && !a.Step?
    ensures Owing(Apply(s, a), u, b) == Owing(s, u, b)
  {
    BystanderLeavesRegistry(s, a);
  }

  lemma PresenceOther(s: State, a: Action)
    requires PresenceInv(s) && Enabled(s, a) && !a.Step?
    ensures PresenceInv(Apply(s, a))
  {
    var t := Apply(s, a);
    FlipsLog(s, a);
    assert s.log.flips + [] == s.log.flips;
    forall u, b
      ensures multiset(t.log.posted)[PresenceNotify(u, b)] + |Owing(t, u, b)| == multiset(t.log.flips)[Flip(u, b)]
    {
      OtherPosts(s, a, u, b);
      OtherOwing(s, a, u, b);
    }
  }

  // ----------------------------------------------------------------- delivery

  /** The queue and the walk in progress, seen as positions in the log. */
  ghost predicate DispatchInv(s: State) {
    && |s.notifyCh| <= |s.log.posted|
    && s.notifyCh == s.log.posted[Dequeued(s)..]
    && |s.log.deliveries| + (if s.run.Locking? || s.run.Parked? then 1 else 0) == Dequeued(s)
    && (s.run.Locking? || s.run.Parked? ==> s.run.n == s.log.posted[Dequeued(s) - 1])
    && (forall i :: 0 <= i < |s.log.deliveries| ==>
          s.log.deliveries[i].n == s.log.posted[i] && s.log.deliveries[i].to <= s.channels.Keys)
  }

  function Dequeued(s: State): int {
    |s.log.posted| - |s.notifyCh|
  }

  /** The events addressed to c while it was registered, in dispatch order. */
  function AddressedTo(deliveries: seq<Delivery>, c: ClientId): seq<Event> {
    if deliveries == [] then []
    else
      var last := deliveries[|deliveries| - 1];
      AddressedTo(deliveries[..|deliveries| - 1], c) + if c in last.to then [last.n.event] else []
  }

  /** f embeds a into b: it lists increasing positions of b at which a occurs. */
  ghost predicate Embeds(f: seq<nat>, a: seq<Event>, b: seq<Event>) {
    && |f| == |a|
    && (forall i :: 0 <= i < |f| ==> f[i] < |b| && a[i] == b[f[i]])
    && (forall i, j :: 0 <= i < j < |f| ==> f[i] < f[j])
  }

  ghost predicate Subsequence(a: seq<Event>, b: seq<Event>) {
    exists f :: Embeds(f, a, b)
  }

  /** All that c was addressed, but for the event a walk has not brought yet. */
  function Settled(s: State, c: ClientId): seq<Event> {
    if s.run.Walking? && c in s.run.left && s.log.deliveries != []
    then AddressedTo(s.log.deliveries[..|s.log.deliveries| - 1], c)
    else AddressedTo(s.log.deliveries, c)
  }

  ghost predicate Accounted(ch: Channel, settled: seq<Event>) {
    && Subsequence(ch.received + ch.queue, settled)
    && |ch.received| + |ch.queue| + ch.dropped == |settled|
  }

  ghost predicate ClientInv(s: State) {
    forall c :: c in s.channels ==> Accounted(s.channels[c], Settled(s, c))
  }

  lemma AddressedAppend(ds: seq<Delivery>, d: Delivery, c: ClientId)
    ensures AddressedTo(ds + [d], c) == AddressedTo(ds, c) + if c in d.to then [d.n.event] else []
  {
    assert (ds + [d])[..|ds|] == ds;
  }

  lemma {:induction false} AddressedToStranger(ds: seq<Delivery>, c: ClientId)
    requires forall i :: 0 <= i < |ds| ==> c !in ds[i].to
    ensures AddressedTo(ds, c) == []
  {
    if ds != [] {
      AddressedToStranger(ds[..|ds| - 1], c);
    }
  }

  lemma SubsequenceAppend(a: seq<Event>, b: seq<Event>, ev: Event)
    requires Subsequence(a, b)
    ensures Subsequence(a + [ev], b + [ev]) && Subsequence(a, b + [ev])
  {
    var f: seq<nat> :| Embeds(f, a, b);
    assert Embeds(f, a, b + [ev]);
    assert Embeds(f + [|b|], a + [ev], b + [ev]);
  }

  lemma DispatchPost(s: State, t: State, ns: seq<Notify>)
    requires DispatchInv(s)
    requires t.log.posted == s.log.posted + ns && t.notifyCh == s.notifyCh + ns
    requires t.log.deliveries == s.log.deliveries && s.channels.Keys <= t.channels.Keys
    requires t.run.Locking? || t.run.Parked? <==> s.run.Locking? || s.run.Parked?
    requires t.run.Locking? || t.run.Parked? ==> t.run.n == s.run.n
    ensures DispatchInv(t)
  {
    assert Dequeued(t) == Dequeued(s);
  }

  lemma DispatchDequeue(s: State, t: State)
    requires DispatchInv(s) && s.run.Idle? && s.notifyCh != []
    requires t.log.posted == s.log.posted && t.notifyCh == s.notifyCh[1..]
    requires t.log.deliveries == s.log.deliveries && s.channels.Keys <= t.channels.Keys
    requires t.run == Locking(s.notifyCh[0])
    ensures DispatchInv(t)
  {
    assert Dequeued(t) == Dequeued(s) + 1;
    assert s.notifyCh[0] == s.log.posted[Dequeued(s)];
  }

  lemma DispatchWalk(s: State, t: State, to: set<ClientId>)
    requires DispatchInv(s) && (s.run.Locking? || s.run.Parked?)
    requires t.log.posted == s.log.posted && t.notifyCh == s.notifyCh
    requires t.log.deliveries == s.log.deliveries + [Delivery(s.run.n, to)]
    requires to <= s.channels.Keys <= t.channels.Keys && t.run.Walking?
    ensures DispatchInv(t)
  {
    assert Dequeued(t) == Dequeued(s);
  }

  /** The dispatcher's hand stays as it is unless it dequeues or starts to walk. */
  lemma HandStays(s: State, a: Action)
    requires Enabled(s, a) && !StartsWalk(s, a) && !(a.Dispatch? && s.run.Idle?)
    ensures var t := Apply(s, a);
      && (t.run.Locking? || t.run.Parked? <==> s.run.Locking? || s.run.Parked?)
      && (t.run.Locking? || t.run.Parked? ==> t.run.n == s.run.n)
  {
    if a.Step? {
      StepLeavesHand(s, a.c);
    }
  }

  lemma StepLeavesHand(s: State, c: ClientId)
    requires Enabled(s, Step(c)) && !StartsWalk(s, Step(c))
    ensures Apply(s, Step(c)).run == s.run
  {
  }

  lemma ChannelsStay(s: State, a: Action)
    requires Enabled(s, a) && (a.Visit? ==> a.c in s.channels)
    ensures s.channels.Keys <= Apply(s, a).channels.Keys
  {
  }

  lemma WalkBegins(s: State, a: Action)
    requires Enabled(s, a) && StartsWalk(s, a)
    ensures Apply(s, a).run == Walking(s.run.n, Targets(s.clients, s.run.n.userID))
    ensures Apply(s, a).notifyCh == s.notifyCh && Apply(s, a).log.posted == s.log.posted
    ensures Apply(s, a).channels == s.channels
  {
  }

  lemma DispatchStep(s: State, a: Action)
    requires DispatchInv(s) && RegistryInv(s) && s.channels.Keys == s.conns.Keys && Enabled(s, a)
    requires a.Visit? ==> a.c in s.channels
    ensures DispatchInv(Apply(s, a))
  {
    var t := Apply(s, a);
    DeliveriesLog(s, a);
    if StartsWalk(s, a) {
      TargetsAreRegistered(s, s.run.n.userID);
      WalkBegins(s, a);
      DispatchWalk(s, t, Targets(s.clients, s.run.n.userID));
    } else {
      assert s.log.deliveries + [] == s.log.deliveries;
      if a.Dispatch? && s.run.Idle? {
        DispatchDequeue(s, t);
      } else {
        PostedLog(s, a);
        HandStays(s, a);
        ChannelsStay(s, a);
        DispatchPost(s, t, PostedBy(s, a));
      }
    }
  }

  /** The part of a channel that ClientInv is about. */
  predicate SameTraffic(x: Channel, y: Channel) {
    x.queue == y.queue && x.received == y.received && x.dropped == y.dropped
  }

  ghost predicate Untouched(s: State, t: State) {
    s.channels.Keys == t.channels.Keys
    && forall c :: c in s.channels ==> SameTraffic(s.channels[c], t.channels[c])
  }

  lemma ClientQuiet(s: State, t: State)
    requires ClientInv(s) && Untouched(s, t) && t.log.deliveries == s.log.deliveries
    requires t.run == s.run || (!t.run.Walking? && (s.run.Walking? ==> s.run.left == {}))
    ensures ClientInv(t)
  {
    assert forall c :: Settled(t, c) == Settled(s, c);
  }

  lemma ClientWalk(s: State, t: State, n: Notify, to: set<ClientId>)
    requires ClientInv(s) && Untouched(s, t) && !s.run.Walking?
    requires t.log.deliveries == s.log.deliveries + [Delivery(n, to)] && t.run == Walking(n, to)
    ensures ClientInv(t)
  {
    forall c
      ensures Settled(t, c) == Settled(s, c)
    {
      AddressedAppend(s.log.deliveries, Delivery(n, to), c);
      assert t.log.deliveries[..|t.log.deliveries| - 1] == s.log.deliveries;
    }
  }

  lemma ClientVisit(s: State, c: ClientId)
    requires ClientInv(s) && WalkInv(s) && Enabled(s, Visit(c))
    requires c in s.channels && !s.channels[c].closed
    ensures ClientInv(VisitClient(s, c))
  {
    var t := VisitClient(s, c);
    var ds, ev := s.log.deliveries, s.run.n.event;
    assert ds[..|ds| - 1] + [ds[|ds| - 1]] == ds;
    AddressedAppend(ds[..|ds| - 1], ds[|ds| - 1], c);
    assert Settled(t, c) == Settled(s, c) + [ev];
    var ch := s.channels[c];
    SubsequenceAppend(ch.received + ch.queue, Settled(s, c), ev);
    assert ch.received + (ch.queue + [ev]) == (ch.received + ch.queue) + [ev];
    assert Accounted(t.channels[c], Settled(t, c));
    assert forall d :: d != c ==> Settled(t, d) == Settled(s, d);
  }

  lemma ClientPump(s: State, t: State, c: ClientId)
    requires ClientInv(s) && c in s.channels && s.channels[c].queue != []
    requires t.run == s.run && t.log.deliveries == s.log.deliveries
    requires t.channels == s.channels[c := s.channels[c].(
      queue := s.channels[c].queue[1..], received := s.channels[c].received + [s.channels[c].queue[0]])]
    ensures ClientInv(t)
  {
    var x, y := s.channels[c], t.channels[c];
    assert x.received + x.queue == y.received + y.queue;
    assert forall d :: Settled(t, d) == Settled(s, d);
  }

  lemma StrangerIsSettled(s: State, c: ClientId)
    requires DispatchInv(s) && WalkInv(s) && c !in s.channels
    ensures Settled(s, c) == []
  {
    AddressedToStranger(s.log.deliveries, c);
    assert s.run.Walking? ==> c !in s.run.left;
  }

  lemma NothingIsAccounted()
    ensures Accounted(Channel([], false, true, [], 0), [])
  {
    var none: seq<Event> := [];
    assert none + none == none;
    assert Embeds([], none, none);
  }

  lemma ClientConnect(s: State, t: State, c: ClientId)
    requires ClientInv(s) && Settled(s, c) == [] && t.run == s.run && t.log.deliveries == s.log.deliveries
    requires t.channels == s.channels[c := Channel([], false, true, [], 0)]
    ensures ClientInv(t)
  {
    NothingIsAccounted();
    assert forall d :: Settled(t, d) == Settled(s, d);
  }

  lemma GoroutineLeavesTraffic(s: State, c: ClientId)
    requires Enabled(s, Step(c)) && !StartsWalk(s, Step(c))
    ensures Untouched(s, Apply(s, Step(c))) && Apply(s, Step(c)).run == s.run
  {
  }

  lemma ClientStep(s: State, a: Action)
    requires ClientInv(s) && DispatchInv(s) && Inv(s) && Enabled(s, a)
    ensures ClientInv(Apply(s, a))
  {
    if StartsWalk(s, a) {
      DeliveriesLog(s, a);
      WalkBegins(s, a);
      ClientWalk(s, Apply(s, a), s.run.n, Targets(s.clients, s.run.n.userID));
    } else if a.Step? {
      ClientMove(s, a.c);
    } else {
      ClientOther(s, a);
    }
  }

  lemma ClientMove(s: State, c: ClientId)
    requires ClientInv(s) && Enabled(s, Step(c)) && !StartsWalk(s, Step(c))
    ensures ClientInv(Apply(s, Step(c)))
  {
    StepDeliveriesLog(s, c);
    assert s.log.deliveries + [] == s.log.deliveries;
    GoroutineLeavesTraffic(s, c);
    ClientQuiet(s, Apply(s, Step(c)));
  }

  /** The dispatcher's other moves, senders, queries and stopping pumps. */
  lemma OthersLeaveTraffic(s: State, a: Action)
    requires Enabled(s, a) && (a.StopPump? || a.Send? || a.EnterQuery? || a.ExitQuery? || a.Dispatch? || a.Cancel?)
    requires !StartsWalk(s, a)
    ensures var t := Apply(s, a);
      Untouched(s, t) && (t.run == s.run || (!t.run.Walking? && (s.run.Walking? ==> s.run.left == {})))
  {
  }

  lemma ClientOther(s: State, a: Action)
    requires ClientInv(s) && DispatchInv(s) && ChannelInv(s) && RegistryInv(s) && WalkInv(s)
    requires Enabled(s, a) && !a.Step? && !StartsWalk(s, a)
    ensures ClientInv(Apply(s, a))
  {
    if a.Visit? {
      TargetsAreRegistered(s, s.run.n.userID);
      ClientVisit(s, a.c);
    } else {
      DeliveriesLog(s, a);
      assert s.log.deliveries + [] == s.log.deliveries;
      var t := Apply(s, a);
      if a.Pump? {
        ClientPump(s, t, a.c);
      } else if a.Connect? {
        StrangerIsSettled(s, a.c);
        ClientConnect(s, t, a.c);
      } else {
        OthersLeaveTraffic(s, a);
        ClientQuiet(s, t);
      }
    }
  }
}
