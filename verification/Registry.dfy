/** The vocabulary of the realtime hub: events, notifications, the two-level
    client registry and the bounded client buffer.  The sequential objects in
    Hub.dfy and the concurrent protocol in HubProtocol.dfy are both built on
    these functions. */
module Registry {
  /** A uuid; only equality and the nil value matter. */
  type UserId = nat

  const NIL: UserId := 0
  const NOTIFY_CAPACITY := 256
  const SEND_BUFFER := 64

  /** The hub itself emits only presence events; everything else is a message
      pushed by a request handler. */
  datatype Event =
    | Presence(user: UserId, online: bool)
    | Message(id: nat)

  /** A notification addressed to NIL is a broadcast. */
  datatype Notify = Notify(userID: UserId, event: Event)

  type Clients<!C> = map<UserId, set<C>>

  function ClientsOf<C>(clients: Clients<C>, u: UserId): set<C> {
    if u in clients then clients[u] else {}
  }

  /** c is filed under u. */
  predicate Filed<C>(clients: Clients<C>, u: UserId, c: C) {
    u in clients && c in clients[u]
  }

  function AddClient<C>(clients: Clients<C>, u: UserId, c: C): Clients<C> {
    clients[u := ClientsOf(clients, u) + {c}]
  }

  function RemoveClient<C>(clients: Clients<C>, u: UserId, c: C): Clients<C> {
    if u !in clients then clients
    else if clients[u] - {c} == {} then clients - {u}
    else clients[u := clients[u] - {c}]
  }

  function Everyone<C>(clients: Clients<C>): set<C> {
    set u, c | u in clients && c in clients[u] :: c
  }

  /** The clients that the loops of `deliver` range over. */
  function Targets<C>(clients: Clients<C>, userID: UserId): set<C> {
    if userID == NIL then Everyone(clients) else ClientsOf(clients, userID)
  }

  /** The effect of the non-blocking send on a client's buffer. */
  function Offered(queue: seq<Event>, ev: Event): seq<Event> {
    if |queue| < SEND_BUFFER then queue + [ev] else queue
  }

  function OfferedIf(hit: bool, queue: seq<Event>, ev: Event): seq<Event> {
    if hit then Offered(queue, ev) else queue
  }
}
