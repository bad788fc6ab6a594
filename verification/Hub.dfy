/** The hub and its clients as objects, one critical section per method.
    HubProtocol interleaves these sections; both use the functions of Registry. */
module HubObjects {
  import opened Registry

  class Client {
    const userID: UserId
    var send: seq<Event>
    var closed: bool

    constructor (userID: UserId)
      ensures this.userID == userID && send == [] && !closed
    {
      this.userID := userID;
      send, closed := [], false;
    }

    /** The non-blocking send of `queue`; on a closed channel it would panic. */
    method Offer(ev: Event)
      requires !closed
      modifies this`send
      ensures send == Offered(old(send), ev)
      ensures send == if |old(send)| < 64 then old(send) + [ev] else old(send)
    {
      if |send| < SEND_BUFFER {
        send := send + [ev];
      }
    }
  }

  lemma OnlyOne(conns: set<Client>, c: Client)
    ensures conns == {c} <==> conns != {} && conns <= {c}
  {
    if conns != {} && conns <= {c} {
      var d :| d in conns;
      assert d == c;
    }
  }

  class Hub {
    var clients: Clients<Client>
    var online: set<UserId>
    var notifyCh: seq<Notify>

    constructor ()
      ensures Valid() && clients == map[] && online == {} && notifyCh == []
    {
      clients, online, notifyCh := map[], {}, [];
    }

    /** The state between critical sections. */
    ghost predicate Valid()
      reads this, Everyone(clients)
    {
      && clients.Keys == online
      && (forall u :: u in clients ==> clients[u] != {})
      && (forall u, c :: u in clients && c in clients[u] ==> c.userID == u)
      && (forall c :: c in Everyone(clients) ==> !c.closed && |c.send| <= SEND_BUFFER)
      && |notifyCh| <= NOTIFY_CAPACITY
    }

    /** Whether the caller owes an "online" broadcast is returned: `register`
        posts it only after it has released the lock. */
    method Register(c: Client) returns (flip: bool)
      requires Valid() && !c.closed && |c.send| <= SEND_BUFFER
      modifies this`clients, this`online
      ensures Valid()
      ensures clients == AddClient(old(clients), c.userID, c) && online == old(online) + {c.userID}
      ensures forall u, d :: Filed(clients, u, d) <==> Filed(old(clients), u, d) || (u == c.userID && d == c)
      ensures flip <==> c.userID !in old(online)
    {
      if c.userID !in clients {
        clients := clients[c.userID := {}];
      }
      clients := clients[c.userID := clients[c.userID] + {c}];
      flip := c.userID !in online;
      online := online + {c.userID};
    }

    /** Likewise for "offline": owed exactly when the user's last client goes. */
    method Unregister(c: Client) returns (flip: bool)
      requires Valid()
      modifies this`clients, this`online
      ensures Valid()
      ensures clients == RemoveClient(old(clients), c.userID, c) && c !in Everyone(clients)
      ensures forall u, d :: Filed(clients, u, d) <==> Filed(old(clients), u, d) && !(u == c.userID && d == c)
      ensures online == if flip then old(online) - {c.userID} else old(online)
      ensures flip <==> c.userID in old(clients) && old(clients)[c.userID] == {c}
    {
      flip := false;
      OnlyOne(ClientsOf(clients, c.userID), c);
      if c.userID in clients {
        var conns := clients[c.userID] - {c};
        clients := clients[c.userID := conns];
        if conns == {} {
          clients := clients - {c.userID};
        }
      }
      if c.userID in online {
        if c.userID !in clients || clients[c.userID] == {} {
          online := online - {c.userID};
          flip := true;
        }
      }
    }

    /** The end of a connection: unregister, then close the channel. */
    method Close(c: Client) returns (flip: bool)
      requires Valid() && !c.closed
      modifies this`clients, this`online, c`closed
      ensures Valid() && c.closed
      ensures clients == RemoveClient(old(clients), c.userID, c) && c !in Everyone(clients)
      ensures forall u, d :: Filed(clients, u, d) <==> Filed(old(clients), u, d) && !(u == c.userID && d == c)
      ensures online == if flip then old(online) - {c.userID} else old(online)
      ensures flip <==> c.userID in old(clients) && old(clients)[c.userID] == {c}
    {
      flip := Unregister(c);
      c.closed := true;
    }

    /** Notify and Broadcast; `sent` is false when the caller has to block. */
    method Post(n: Notify) returns (sent: bool)
      requires Valid()
      modifies this`notifyCh
      ensures Valid()
      ensures sent <==> |old(notifyCh)| < 256
      ensures notifyCh == if sent then old(notifyCh) + [n] else old(notifyCh)
    {
      sent := |notifyCh| < NOTIFY_CAPACITY;
      if sent {
        notifyCh := notifyCh + [n];
      }
    }

    /** Each targeted client is offered the event exactly once, nobody else is. */
    method Deliver(n: Notify)
      requires Valid()
      modifies Everyone(clients)
      ensures Valid()
      ensures forall c :: c in Everyone(clients) ==>
        c.send == OfferedIf(c in Targets(clients, n.userID), old(c.send), n.event)
      ensures forall u, c :: u in clients && c in clients[u] ==>
        c.send == old(c.send) + if (n.userID == NIL || u == n.userID) && |old(c.send)| < 64 then [n.event] else []
    {
      ghost var all := Everyone(clients);
      assert forall c :: c in all ==> c.userID in clients && c in clients[c.userID];
      if n.userID == NIL {
        var users := clients.Keys;
        while users != {}
          invariant users <= clients.Keys
          invariant forall c :: c in all ==>
            !c.closed && c.send == OfferedIf(c.userID !in users, old(c.send), n.event)
        {
          var u :| u in users;
          assert clients[u] <= all;
          OfferAll(clients[u], n.event);
          users := users - {u};
        }
      } else if n.userID in clients {
        assert clients[n.userID] <= all;
        OfferAll(clients[n.userID], n.event);
      }
    }

    /** The loop over one user's connections. */
    method OfferAll(conns: set<Client>, ev: Event)
      requires forall c :: c in conns ==> !c.closed
      modifies conns
      ensures forall c :: c in conns ==> !c.closed && c.send == Offered(old(c.send), ev)
      ensures forall c :: c in conns ==> c.send == if |old(c.send)| < 64 then old(c.send) + [ev] else old(c.send)
    {
      var left := conns;
      while left != {}
        invariant left <= conns
        invariant forall c :: c in conns ==> !c.closed && c.send == OfferedIf(c !in left, old(c.send), ev)
      {
        var c :| c in left;
        c.Offer(ev);
        left := left - {c};
      }
    }

    /** One turn of Run's loop. */
    method Dispatch()
      requires Valid() && notifyCh != []
      modifies this`notifyCh, Everyone(clients)
      ensures Valid() && notifyCh == old(notifyCh[1..])
      ensures var n := old(notifyCh[0]);
        forall c :: c in Everyone(clients) ==>
          c.send == OfferedIf(c in Targets(clients, n.userID), old(c.send), n.event)
      ensures var n := old(notifyCh[0]);
        forall u, c :: u in clients && c in clients[u] ==>
          c.send == if (n.userID == NIL || u == n.userID) && |old(c.send)| < 64 then old(c.send) + [n.event]
                    else old(c.send)
    {
      var n := notifyCh[0];
      notifyCh := notifyCh[1..];
      Deliver(n);
    }

    method IsOnline(u: UserId) returns (yes: bool)
      requires Valid()
      ensures yes <==> exists c :: c in Everyone(clients) && c.userID == u
    {
      yes := u in online;
      if yes {
        ghost var c :| c in clients[u];
        assert c in Everyone(clients);
      }
    }

    /** Every present user, each once. */
    method OnlineUsers() returns (out: seq<UserId>)
      requires Valid()
      ensures |out| == |online| && forall u :: u in out <==> u in online
    {
      out := [];
      var rest := online;
      while rest != {}
        invariant rest <= online && |out| + |rest| == |online|
        invariant forall u :: u in out <==> u in online - rest
      {
        var u :| u in rest;
        out := out + [u];
        rest := rest - {u};
      }
    }
  }
}
