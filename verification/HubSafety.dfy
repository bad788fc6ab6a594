/** Invariants of every interleaving of the realtime hub. */
module HubSafety {
  import opened Options
  import opened Registry
  import opened HubProtocol

  // --------------------------------------------------------------- invariants

  /** The RWMutex: at most one announced writer, and no active reader beside a
      writer that holds the lock. */
  ghost predicate LockInv(s: State) {
    && (s.lock.writer.Some? ==> s.lock.writer.value in s.conns && Announced(s.conns[s.lock.writer.value].pc))
    && (forall c :: c in s.conns && Announced(s.conns[c].pc) ==> s.lock.writer == Some(c))
    && (forall c :: c in s.conns && Holds(s.conns[c].pc) ==> ActiveReaders(s) == 0)
    && (s.run.Parked? || s.lock.parked > 0 ==> s.lock.writer.Some?)
  }

  /** h.clients files exactly the registered clients, each under its own user. */
  ghost predicate RegistryInv(s: State) {
    && (forall u :: u in s.clients ==> s.clients[u] != {})
    && (forall u, c :: u in s.clients && c in s.clients[u] ==> c in s.conns && s.conns[c].user == u)
    && (forall c :: c in s.conns ==>
          (Registered(s.conns[c].pc) <==> c in ClientsOf(s.clients, s.conns[c].user)))
  }

  /** Some connection of u holds the lock between its two edits. */
  ghost predicate Marking(s: State, u: UserId, call: Call) {
    && s.lock.writer.Some? && s.lock.writer.value in s.conns
    && s.conns[s.lock.writer.value] == Conn(u, In(call, Mark))
  }

  /** h.online is the key set of h.clients, except between the two edits. */
  ghost predicate OnlineInv(s: State) {
    forall u ::
      && (u in s.clients && u !in s.online ==> Marking(s, u, Register))
      && (u !in s.clients && u in s.online ==> Marking(s, u, Unregister))
  }

  ghost predicate ChannelInv(s: State) {
    && !s.panicked
    && s.channels.Keys == s.conns.Keys
    && (forall c :: c in s.conns ==> (s.channels[c].closed <==> s.conns[c].pc.Closed?))
    && (forall c :: c in s.channels ==> |s.channels[c].queue| <= SEND_BUFFER)
    && |s.notifyCh| <= NOTIFY_CAPACITY
  }

  /** What remains of a walk is still registered. */
  ghost predicate WalkInv(s: State) {
    s.run.Walking? ==>
      && s.run.left <= Targets(s.clients, s.run.n.userID)
      && s.log.deliveries != []
      && s.log.deliveries[|s.log.deliveries| - 1] == Delivery(s.run.n, Targets(s.clients, s.run.n.userID))
  }

  ghost predicate Inv(s: State) {
    LockInv(s) && RegistryInv(s) && OnlineInv(s) && ChannelInv(s) && WalkInv(s)
  }

  // -------------------------------------------------------------- preservation

  lemma TargetsAreRegistered(s: State, userID: UserId)
    requires RegistryInv(s)
    ensures forall c :: c in Targets(s.clients, userID) <==>
      c in s.conns && Registered(s.conns[c].pc) && (userID == NIL || s.conns[c].user == userID)
  {
    forall c | c in s.conns && Registered(s.conns[c].pc)
      ensures c in Everyone(s.clients)
    {
      assert c in s.clients[s.conns[c].user];
    }
  }

  /** The goroutine of c moves to pc. */
  ghost predicate Moves(s: State, t: State, c: ClientId, pc: Pc) {
    c in s.conns && t.conns == s.conns[c := s.conns[c].(pc := pc)]
  }

  /** Taking, keeping and leaving the lock: what a goroutine's move does to it. */
  lemma LockMove(s: State, t: State, c: ClientId, pc: Pc)
    requires LockInv(s) && Moves(s, t, c, pc)
    requires t.lock.parked > 0 || t.run.Parked? ==> t.lock.writer.Some?
    requires Announced(pc) ==> t.lock.writer == Some(c) && (s.lock.writer == None || s.lock.writer == Some(c))
    requires !Announced(pc) ==> t.lock.writer == (if s.lock.writer == Some(c) then None else s.lock.writer)
    requires Holds(pc) ==> ActiveReaders(t) == 0
    requires t.lock.writer == Some(c) || ActiveReaders(t) == ActiveReaders(s) || s.lock.writer == Some(c)
    ensures LockInv(t)
  {
  }

  lemma LockStep(s: State, c: ClientId)
    requires LockInv(s) && Enabled(s, Step(c))
    ensures LockInv(Apply(s, Step(c)))
  {
    LockMove(s, Apply(s, Step(c)), c, NextPc(s, s.conns[c]));
  }

  lemma RegistryMove(s: State, t: State, c: ClientId, pc: Pc)
    requires RegistryInv(s) && Moves(s, t, c, pc) && t.clients == s.clients
    requires Registered(pc) <==> Registered(s.conns[c].pc)
    ensures RegistryInv(t)
  {
  }

  lemma RegistryEdit(s: State, t: State, c: ClientId, call: Call)
    requires RegistryInv(s) && Moves(s, t, c, In(call, Mark)) && s.conns[c].pc == In(call, Edit)
    requires t.clients == if call.Register? then AddClient(s.clients, s.conns[c].user, c)
                          else RemoveClient(s.clients, s.conns[c].user, c)
    ensures RegistryInv(t)
  {
  }

  lemma RegistryStep(s: State, c: ClientId)
    requires RegistryInv(s) && Enabled(s, Step(c))
    ensures RegistryInv(Apply(s, Step(c)))
  {
    var t := Apply(s, Step(c));
    var pc := s.conns[c].pc;
    if pc.In? && pc.at.Edit? {
      RegistryEdit(s, t, c, pc.call);
    } else {
      RegistryMove(s, t, c, NextPc(s, s.conns[c]));
    }
  }

  lemma OnlineMove(s: State, t: State, c: ClientId, pc: Pc)
    requires LockInv(s) && OnlineInv(s) && Moves(s, t, c, pc)
    requires t.clients == s.clients && t.online == s.online
    requires t.lock.writer == s.lock.writer || s.lock.writer == None || s.lock.writer == Some(c)
    requires !(s.conns[c].pc.In? && s.conns[c].pc.at.Mark?)
    ensures OnlineInv(t)
  {
  }

  lemma OnlineEdit(s: State, t: State, c: ClientId, call: Call)
    requires LockInv(s) && OnlineInv(s) && s.lock == t.lock && t.online == s.online
    requires Moves(s, t, c, In(call, Mark)) && s.conns[c].pc == In(call, Edit)
    requires t.clients == if call.Register? then AddClient(s.clients, s.conns[c].user, c)
                          else RemoveClient(s.clients, s.conns[c].user, c)
    ensures OnlineInv(t)
  {
  }

  lemma OnlineMark(s: State, c: ClientId)
    requires LockInv(s) && RegistryInv(s) && OnlineInv(s) && Enabled(s, Step(c))
    requires s.conns[c].pc.In? && s.conns[c].pc.at.Mark?
    ensures OnlineInv(Apply(s, Step(c)))
  {
  }

  lemma OnlineStep(s: State, c: ClientId)
    requires LockInv(s) && RegistryInv(s) && OnlineInv(s) && Enabled(s, Step(c))
    ensures OnlineInv(Apply(s, Step(c)))
  {
    var t := Apply(s, Step(c));
    var pc := s.conns[c].pc;
    if pc.In? && pc.at.Edit? {
      OnlineEdit(s, t, c, pc.call);
    } else if pc.In? && pc.at.Mark? {
      OnlineMark(s, c);
    } else {
      OnlineMove(s, t, c, NextPc(s, s.conns[c]));
    }
  }

  lemma ChannelMove(s: State, t: State, c: ClientId, pc: Pc)
    requires ChannelInv(s) && Moves(s, t, c, pc)
    requires t.channels == s.channels && t.panicked == s.panicked && |t.notifyCh| <= NOTIFY_CAPACITY
    requires !pc.Closed? && !s.conns[c].pc.Closed?
    ensures ChannelInv(t)
  {
  }

  lemma ChannelStep(s: State, c: ClientId)
    requires ChannelInv(s) && Enabled(s, Step(c))
    ensures ChannelInv(Apply(s, Step(c)))
  {
    if !s.conns[c].pc.Closing? {
      ChannelMove(s, Apply(s, Step(c)), c, NextPc(s, s.conns[c]));
    }
  }

  lemma WalkStep(s: State, c: ClientId)
    requires LockInv(s) && WalkInv(s) && Enabled(s, Step(c))
    ensures WalkInv(Apply(s, Step(c)))
  {
  }

  // Steps of the other goroutines.

  /** Only a connection's own steps touch the registry. */
  lemma BystanderLeavesRegistry(s: State, a: Action)
    requires Enabled(s, a) && !a.Step?
    ensures Apply(s, a).clients == s.clients && Apply(s, a).online == s.online
    ensures Apply(s, a).conns == if a.Connect? then s.conns[a.c := Conn(a.user, In(Register, Lock))] else s.conns
  {
  }

  lemma LockOther(s: State, a: Action)
    requires LockInv(s) && ChannelInv(s) && Enabled(s, a) && !a.Step?
    ensures LockInv(Apply(s, a))
  {
  }

  lemma RegistryConnect(s: State, t: State, c: ClientId, u: UserId)
    requires RegistryInv(s) && c !in s.conns
    requires t.clients == s.clients && t.conns == s.conns[c := Conn(u, In(Register, Lock))]
    ensures RegistryInv(t)
  {
  }

  lemma RegistryOther(s: State, a: Action)
    requires RegistryInv(s) && Enabled(s, a) && !a.Step?
    ensures RegistryInv(Apply(s, a))
  {
    BystanderLeavesRegistry(s, a);
    if a.Connect? {
      RegistryConnect(s, Apply(s, a), a.c, a.user);
    }
  }

  lemma OnlineOther(s: State, a: Action)
    requires LockInv(s) && OnlineInv(s) && Enabled(s, a) && !a.Step?
    ensures OnlineInv(Apply(s, a))
  {
  }

  lemma ChannelVisit(s: State, c: ClientId)
    requires ChannelInv(s) && Enabled(s, Visit(c)) && c in s.channels && !s.channels[c].closed
    ensures ChannelInv(VisitClient(s, c))
  {
  }

  lemma ChannelQuiet(s: State, a: Action)
    requires ChannelInv(s) && Enabled(s, a) && !a.Step? && !a.Visit?
    ensures ChannelInv(Apply(s, a))
  {
  }

  /** Channel safety is here: what is left of a walk is registered, and a
      registered connection's channel is open. */
  lemma ChannelOther(s: State, a: Action)
    requires ChannelInv(s) && WalkInv(s) && RegistryInv(s) && Enabled(s, a) && !a.Step?
    ensures ChannelInv(Apply(s, a))
  {
    if a.Visit? {
      TargetsAreRegistered(s, s.run.n.userID);
      ChannelVisit(s, a.c);
    } else {
      ChannelQuiet(s, a);
    }
  }

  lemma WalkOther(s: State, a: Action)
    requires WalkInv(s) && Enabled(s, a) && !a.Step?
    ensures WalkInv(Apply(s, a))
  {
  }

  lemma InvStep(s: State, a: Action)
    requires Inv(s) && Enabled(s, a)
    ensures Inv(Apply(s, a))
  {
    if a.Step? {
      LockStep(s, a.c);
      RegistryStep(s, a.c);
      OnlineStep(s, a.c);
      ChannelStep(s, a.c);
      WalkStep(s, a.c);
    } else {
      LockOther(s, a);
      RegistryOther(s, a);
      OnlineOther(s, a);
      ChannelOther(s, a);
      WalkOther(s, a);
    }
  }
}
