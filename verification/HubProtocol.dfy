/** The realtime hub as a concurrent protocol.

    Every goroutine is a program counter: one per connection (register, live,
    unregister, close), one for `Run`, and an anonymous crowd of presence
    queries that only hold the read lock.  The lock is Go's RWMutex: a writer
    first announces itself, then waits until the active readers have left;
    readers that arrive meanwhile are parked and let in together when the
    writer unlocks.  `Exec` runs any interleaving. */
module HubProtocol {
  import opened Options
  import opened Registry

  type ClientId = nat

  /** Where a goroutine stands inside `register` or `unregister`. */
  datatype Point =
    | Lock                // before h.mu.Lock()
    | Wait                // announced, waiting for active readers
    | Edit                // holds the lock, before the change of h.clients
    | Mark                // holds the lock, before the change of h.online
    | Unlock(flip: bool)  // holds the lock, before h.mu.Unlock()
    | Post                // lock released, owes a presence broadcast

  datatype Call = Register | Unregister

  datatype Pc = In(call: Call, at: Point) | Live | Closing | Closed

  datatype Conn = Conn(user: UserId, pc: Pc)

  /** A connection's `send` channel with the WritePump that drains it; what the
      pump has taken and how many events were dropped is history. */
  datatype Channel = Channel(
    queue: seq<Event>, closed: bool, pumping: bool, received: seq<Event>, dropped: nat)

  datatype Runner =
    | Idle
    | Locking(n: Notify)                       // dequeued n, before RLock
    | Parked(n: Notify)                        // blocked in RLock
    | Walking(n: Notify, left: set<ClientId>)  // inside the loops of deliver
    | Stopped                                  // context cancelled

  datatype Flip = Flip(user: UserId, online: bool)

  /** History: a notification with the clients it was addressed to. */
  datatype Delivery = Delivery(n: Notify, to: set<ClientId>)

  datatype RWMutex = RWMutex(writer: Option<ClientId>, queries: nat, parked: nat)

  /** History: all notifications put on the queue, all presence flips in lock
      order, all deliveries in dispatch order. */
  datatype Log = Log(posted: seq<Notify>, flips: seq<Flip>, deliveries: seq<Delivery>)

  datatype State = State(
    clients: Clients<ClientId>, online: set<UserId>, notifyCh: seq<Notify>,
    lock: RWMutex, run: Runner,
    conns: map<ClientId, Conn>, channels: map<ClientId, Channel>, panicked: bool,
    log: Log)

  datatype Action =
    | Connect(c: ClientId, user: UserId)  // NewClient makes the channel
    | Step(c: ClientId)                   // next statement of c's goroutine
    | Pump(c: ClientId)                   // WritePump takes the head
    | StopPump(c: ClientId)               // WritePump returns
    | Send(n: Notify)                     // a handler's Notify or Broadcast
    | EnterQuery                          // IsOnline or OnlineUsers: RLock
    | ExitQuery                           // and RUnlock
    | Dispatch                            // Run: dequeue, RLock or RUnlock
    | Visit(c: ClientId)                  // deliver's loop body for c
    | Cancel                              // Run sees the cancelled context

  function Init(): State {
    State(map[], {}, [], RWMutex(None, 0, 0), Idle, map[], map[], false, Log([], [], []))
  }

  // ---------------------------------------------------------------- semantics

  predicate Announced(pc: Pc) {
    pc.In? && !pc.at.Lock? && !pc.at.Post?
  }

  predicate Holds(pc: Pc) {
    Announced(pc) && !pc.at.Wait?
  }

  /** Before `register` has edited h.clients, respectively before `unregister` has. */
  predicate BeforeEdit(at: Point) {
    at.Lock? || at.Wait? || at.Edit?
  }

  /** The part of a connection's life in which h.clients contains it. */
  predicate Registered(pc: Pc) {
    pc.Live? || (pc.In? && (BeforeEdit(pc.at) <==> pc.call.Unregister?))
  }

  /** The WritePump is started once `register` has returned. */
  predicate Pumpable(pc: Pc) {
    !(pc.In? && pc.call.Register?)
  }

  function ActiveReaders(s: State): nat {
    s.lock.queries + if s.run.Walking? then 1 else 0
  }

  /** Blocking operations: taking the lock, and sending on the full channel. */
  predicate Unblocked(s: State, at: Point) {
    match at
    case Lock => s.lock.writer.None?
    case Wait => ActiveReaders(s) == 0
    case Post => |s.notifyCh| < NOTIFY_CAPACITY
    case _ => true
  }

  predicate Enabled(s: State, a: Action) {
    match a
    case Connect(c, _) => c !in s.conns
    case Step(c) =>
      && c in s.conns && c in s.channels && !s.conns[c].pc.Closed?
      && (s.conns[c].pc.In? ==> Unblocked(s, s.conns[c].pc.at))
    case Pump(c) =>
      c in s.conns && c in s.channels && Pumpable(s.conns[c].pc) && s.channels[c].pumping && s.channels[c].queue != []
    case StopPump(c) => c in s.conns && c in s.channels && s.channels[c].pumping && Pumpable(s.conns[c].pc)
    case Send(n) => |s.notifyCh| < NOTIFY_CAPACITY && !n.event.Presence?
    case EnterQuery => true
    case ExitQuery => s.lock.queries > 0
    case Dispatch =>
      (s.run.Idle? && s.notifyCh != []) || s.run.Locking? || (s.run.Walking? && s.run.left == {})
    case Visit(c) => s.run.Walking? && c in s.run.left
    case Cancel => s.run.Idle?
  }

  function Apply(s: State, a: Action): State
    requires Enabled(s, a)
  {
    match a
    case Connect(c, u) =>
      s.(conns := s.conns[c := Conn(u, In(Register, Lock))],
         channels := s.channels[c := Channel([], false, true, [], 0)])
    case Step(c) =>
      Effect(s, c).(conns := s.conns[c := s.conns[c].(pc := NextPc(s, s.conns[c]))])
    case Pump(c) =>
      var ch := s.channels[c];
      s.(channels := s.channels[c := ch.(queue := ch.queue[1..], received := ch.received + [ch.queue[0]])])
    case StopPump(c) => s.(channels := s.channels[c := s.channels[c].(pumping := false)])
    case Send(n) => Enqueue(s, n)
    case EnterQuery =>
      s.(lock := if s.lock.writer.None? then s.lock.(queries := s.lock.queries + 1)
                 else s.lock.(parked := s.lock.parked + 1))
    case ExitQuery => s.(lock := s.lock.(queries := s.lock.queries - 1))
    case Dispatch =>
      if s.run.Idle? then s.(notifyCh := s.notifyCh[1..], run := Locking(s.notifyCh[0]))
      else if s.run.Walking? then s.(run := Idle)
      else if s.lock.writer.Some? then s.(run := Parked(s.run.n))
      else StartWalk(s)
    case Visit(c) => VisitClient(s, c)
    case Cancel => s.(run := Stopped)
  }

  function Enqueue(s: State, n: Notify): State {
    s.(notifyCh := s.notifyCh + [n], log := s.log.(posted := s.log.posted + [n]))
  }

  /** Whether the goroutine's edit of h.online changes the user's presence. */
  predicate Flips(s: State, u: UserId, call: Call) {
    if call.Register? then u !in s.online else u in s.online && ClientsOf(s.clients, u) == {}
  }

  /** After `register` the handler starts the pumps; after `unregister` Close
      closes the channel. */
  function After(call: Call): Pc {
    if call.Register? then Live else Closing
  }

  function NextPc(s: State, conn: Conn): Pc {
    match conn.pc
    case In(call, Lock) => In(call, Wait)
    case In(call, Wait) => In(call, Edit)
    case In(call, Edit) => In(call, Mark)
    case In(call, Mark) => In(call, Unlock(Flips(s, conn.user, call)))
    case In(call, Unlock(flip)) => if flip then In(call, Post) else After(call)
    case In(call, Post) => After(call)
    case Live => In(Unregister, Lock)
    case Closing => Closed
    case Closed => Closed
  }

  /** What the next statement of c's goroutine does besides moving on. */
  function Effect(s: State, c: ClientId): State
    requires c in s.conns && c in s.channels
  {
    var u := s.conns[c].user;
    match s.conns[c].pc
    case In(call, Lock) => s.(lock := s.lock.(writer := Some(c)))
    case In(call, Edit) =>
      s.(clients := if call.Register? then AddClient(s.clients, u, c) else RemoveClient(s.clients, u, c))
    case In(call, Mark) => if Flips(s, u, call) then FlipUser(s, u, call.Register?) else s
    case In(call, Unlock(_)) => Release(s)
    case In(call, Post) => Enqueue(s, Notify(NIL, Presence(u, call.Register?)))
    case Closing => Close(s, c)
    case _ => s
  }

  function FlipUser(s: State, u: UserId, online: bool): State {
    s.(online := if online then s.online + {u} else s.online - {u},
       log := s.log.(flips := s.log.flips + [Flip(u, online)]))
  }

  /** Closing a closed channel panics. */
  function Close(s: State, c: ClientId): State
    requires c in s.channels
  {
    s.(channels := s.channels[c := s.channels[c].(closed := true)], panicked := s.panicked || s.channels[c].closed)
  }

  /** RWMutex.Unlock lets every parked reader in. */
  function Release(s: State): State {
    var t := s.(lock := RWMutex(None, s.lock.queries + s.lock.parked, 0));
    if s.run.Parked? then StartWalk(t) else t
  }

  function StartWalk(s: State): State
    requires s.run.Locking? || s.run.Parked?
  {
    var to := Targets(s.clients, s.run.n.userID);
    s.(run := Walking(s.run.n, to), log := s.log.(deliveries := s.log.deliveries + [Delivery(s.run.n, to)]))
  }

  /** Sending on a closed channel panics; on a full one the event is dropped. */
  function VisitClient(s: State, c: ClientId): State
    requires s.run.Walking?
  {
    var t := s.(run := s.run.(left := s.run.left - {c}));
    if c !in s.channels || s.channels[c].closed then t.(panicked := true)
    else
      var ch := s.channels[c];
      var drops := if |ch.queue| < SEND_BUFFER then 0 else 1;
      t.(channels := s.channels[c := ch.(queue := Offered(ch.queue, s.run.n.event), dropped := ch.dropped + drops)])
  }

  /** A schedule is any sequence of actions, each enabled when its turn comes. */
  predicate Feasible(s: State, schedule: seq<Action>)
    decreases schedule
  {
    schedule == [] || (Enabled(s, schedule[0]) && Feasible(Apply(s, schedule[0]), schedule[1..]))
  }

  function Exec(s: State, schedule: seq<Action>): State
    requires Feasible(s, schedule)
    decreases schedule
  {
    if schedule == [] then s else Exec(Apply(s, schedule[0]), schedule[1..])
  }
}
