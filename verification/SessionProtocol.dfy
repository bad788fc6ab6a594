/** Refresh-token rotation under concurrency.

    Every call of Login, Refresh or Logout is a process whose SQL statements are
    single atomic steps; between them anything else may happen, including failures,
    expiry clean-up, status changes and the removal of users.  The conditional
    UPDATE of Revoke acts as a compare-and-swap on `revoked_at IS NULL`. */
module SessionProtocol {
  import opened Options
  import opened Sessions

  type CallId = nat

  /** Where a call stands. */
  datatype Call =
    | LoginIssuing(user: UserId)                          // credentials checked, before INSERT
    | RefreshReading(hash: Hash)                          // before GetByTokenHash
    | RefreshChecking(session: SessionId, user: UserId)   // before GetByID
    | RefreshRevoking(session: SessionId, user: UserId)   // before Revoke
    | RefreshDropping(session: SessionId)                 // user row gone: Revoke, then fail
    | RefreshIssuing(session: SessionId, user: UserId)    // revoked, before INSERT
    | LogoutReading(hash: Hash)
    | LogoutRevoking(session: SessionId)
    | Issued(session: SessionId)
    | Finished                                            // Logout always reports success
    | Failed

  /** History: who a session was issued to, by which call, which login it goes
      back to, and which session it replaced. */
  datatype Origin = Origin(user: UserId, hash: Hash, issuer: CallId, login: CallId, parent: Option<SessionId>)

  /** History: the sessions that descend from one successful login. */
  datatype Chain = Chain(user: UserId, sessions: seq<SessionId>)

  datatype State = State(
    users: map<UserId, bool>,           // whether the status is 'active'
    rows: Rows, now: int, calls: map<CallId, Call>,
    origins: map<SessionId, Origin>, chains: map<CallId, Chain>)

  datatype Action =
    | Login(p: CallId, user: UserId, valid: bool)       // looks the user up, verifies the password
    | Refresh(p: CallId, hash: Hash)
    | Logout(p: CallId, hash: Hash)
    | Step(p: CallId, id: SessionId, hash: Hash, ttl: nat) // next statement; id and hash serve an INSERT
    // A statement or a signature fails; lost: it took effect all the same.
    | Fail(p: CallId, id: SessionId, hash: Hash, ttl: nat, lost: bool)
    | Tick(d: nat)
    | DeleteExpired
    | Touch(session: SessionId, expiresAt: int)
    | SetUser(user: UserId, active: bool)               // registration or status change
    | DropUser(user: UserId)                            // ON DELETE CASCADE

  function Init(): State {
    State(map[], map[], 0, map[], map[], map[])
  }

  // ---------------------------------------------------------------- semantics

  predicate Running(call: Call) {
    !call.Issued? && !call.Finished? && !call.Failed?
  }

  /** Session ids and token hashes are never drawn twice. */
  predicate Fresh(s: State, id: SessionId, hash: Hash) {
    id !in s.origins && forall x :: x in s.origins ==> s.origins[x].hash != hash
  }

  predicate Enabled(s: State, a: Action) {
    match a
    case Login(p, _, _) => p !in s.calls
    case Refresh(p, _) => p !in s.calls
    case Logout(p, _) => p !in s.calls
    case Step(p, id, hash, _) => p in s.calls && Running(s.calls[p]) && Fresh(s, id, hash)
    case Fail(p, id, hash, _, _) => p in s.calls && Running(s.calls[p]) && Fresh(s, id, hash)
    case _ => true
  }

  predicate Unrevoked(s: State, x: SessionId) {
    Live(s.rows, x)
  }

  function SetCall(s: State, p: CallId, call: Call): State {
    s.(calls := s.calls[p := call])
  }

  /** SELECT ... by token hash; the UNIQUE constraint leaves at most one candidate. */
  ghost function Lookup(s: State, hash: Hash): Option<SessionId> {
    Find(s.rows, hash, s.now)
  }

  /** The next statement of a call: what becomes of the call ... */
  ghost function NextCall(s: State, call: Call, id: SessionId): Call {
    match call
    case LoginIssuing(u) => if u in s.users then Issued(id) else Failed
    case RefreshReading(h) =>
      (match Lookup(s, h)
       case Some(x) => RefreshChecking(x, s.rows[x].user)
       case None => Failed)
    case RefreshChecking(x, u) =>
      if u !in s.users then RefreshDropping(x)
      else if s.users[u] then RefreshRevoking(x, u)
      else Failed
    case RefreshRevoking(x, u) => if Unrevoked(s, x) then RefreshIssuing(x, u) else Failed
    case RefreshDropping(_) => Failed
    case RefreshIssuing(_, u) => if u in s.users then Issued(id) else Failed
    case LogoutReading(h) =>
      (match Lookup(s, h)
       case Some(x) => LogoutRevoking(x)
       case None => Finished)
    case LogoutRevoking(_) => Finished
    case _ => call
  }

  /** ... and what it does to the tables. */
  function Effect(s: State, p: CallId, call: Call, id: SessionId, hash: Hash, ttl: nat): State {
    match call
    case LoginIssuing(u) => if u in s.users then Insert(s, p, u, id, hash, ttl, p, None) else s
    case RefreshRevoking(x, _) => Revoke(s, x)
    case RefreshDropping(x) => Revoke(s, x)
    case RefreshIssuing(x, u) =>
      if u in s.users && x in s.origins then Insert(s, p, u, id, hash, ttl, s.origins[x].login, Some(x)) else s
    case LogoutRevoking(x) => Revoke(s, x)
    case _ => s
  }

  function Revoke(s: State, x: SessionId): State {
    s.(rows := Revoked(s.rows, x, s.now))
  }

  function SessionsOf(s: State, login: CallId): seq<SessionId> {
    if login in s.chains then s.chains[login].sessions else []
  }

  function Insert(s: State, p: CallId, u: UserId, id: SessionId, hash: Hash, ttl: nat,
                  login: CallId, parent: Option<SessionId>): State {
    s.(rows := s.rows[id := Session(u, hash, s.now + ttl, None)],
       origins := s.origins[id := Origin(u, hash, p, login, parent)],
       chains := s.chains[login := Chain(u, SessionsOf(s, login) + [id])])
  }

  ghost function Apply(s: State, a: Action): State
    requires Enabled(s, a)
  {
    match a
    case Login(p, u, valid) =>
      SetCall(s, p, if u in s.users && s.users[u] && valid then LoginIssuing(u) else Failed)
    case Refresh(p, h) => SetCall(s, p, RefreshReading(h))
    case Logout(p, h) => SetCall(s, p, LogoutReading(h))
    case Step(p, id, h, ttl) =>
      Effect(s, p, s.calls[p], id, h, ttl).(calls := s.calls[p := NextCall(s, s.calls[p], id)])
    case Fail(p, id, h, ttl, lost) =>
      (if lost then Effect(s, p, s.calls[p], id, h, ttl) else s).(calls := s.calls[p := Failed])
    case Tick(d) => s.(now := s.now + d)
    case DeleteExpired =>
      s.(rows := Cleaned(s.rows, s.now))
    case Touch(x, expiresAt) =>
      s.(rows := Touched(s.rows, x, expiresAt))
    case SetUser(u, active) => s.(users := s.users[u := active])
    case DropUser(u) =>
      s.(users := s.users - {u}, rows := map x | x in s.rows && s.rows[x].user != u :: s.rows[x])
  }

  ghost predicate Feasible(s: State, schedule: seq<Action>)
    decreases schedule
  {
    schedule == [] || (Enabled(s, schedule[0]) && Feasible(Apply(s, schedule[0]), schedule[1..]))
  }

  ghost function Exec(s: State, schedule: seq<Action>): State
    requires Feasible(s, schedule)
    decreases schedule
  {
    if schedule == [] then s else Exec(Apply(s, schedule[0]), schedule[1..])
  }

  lemma ExecCons(s: State, a: Action, rest: seq<Action>)
    requires Enabled(s, a) && Feasible(Apply(s, a), rest)
    ensures Feasible(s, [a] + rest) && Exec(s, [a] + rest) == Exec(Apply(s, a), rest)
  {
    assert ([a] + rest)[1..] == rest;
  }

  // --------------------------------------------------------------- invariants

  ghost predicate RowInv(s: State) {
    && (forall x :: x in s.rows ==>
          x in s.origins && s.origins[x].user == s.rows[x].user && s.origins[x].hash == s.rows[x].hash)
  }

  ghost predicate HashInv(s: State) {
    forall x, y :: x in s.origins && y in s.origins && s.origins[x].hash == s.origins[y].hash ==> x == y
  }

  /** The last session of its chain. */
  predicate Tip(s: State, x: SessionId) {
    && x in s.origins && s.origins[x].login in s.chains
    && var xs := s.chains[s.origins[x].login].sessions;
       xs != [] && xs[|xs| - 1] == x
  }

  /** Every session is on the chain of its login ... */
  ghost predicate Filed(s: State) {
    forall x :: x in s.origins ==>
      s.origins[x].login in s.chains && x in s.chains[s.origins[x].login].sessions
  }

  /** ... every chain is one: each session's parent is the one before it ... */
  ghost predicate Linear(s: State) {
    forall l, i :: l in s.chains && 0 <= i < |s.chains[l].sessions| ==> OnChain(s, l, i)
  }

  /** ... and starts with the session its login has issued, be it that the answer
      to its INSERT was lost. */
  ghost predicate Rooted(s: State) {
    forall l :: l in s.chains ==>
      && s.chains[l].sessions != [] && l in s.calls
      && (s.calls[l] == Issued(s.chains[l].sessions[0]) || s.calls[l].Failed?)
  }

  ghost predicate ChainInv(s: State) {
    Filed(s) && Linear(s) && Rooted(s)
  }

  predicate OnChain(s: State, l: CallId, i: nat)
    requires l in s.chains && i < |s.chains[l].sessions|
  {
    var xs := s.chains[l].sessions;
    && xs[i] in s.origins && s.origins[xs[i]].login == l && s.origins[xs[i]].user == s.chains[l].user
    && s.origins[xs[i]].parent == (if i == 0 then None else Some(xs[i - 1]))
  }

  /** Calls refer to sessions that exist or existed, with their user. */
  ghost predicate CallInv(s: State) {
    forall p :: p in s.calls ==> CallOk(s, p, s.calls[p])
  }

  predicate CallOk(s: State, p: CallId, call: Call) {
    match call
    case LoginIssuing(_) => p !in s.chains
    case RefreshChecking(x, u) => x in s.origins && s.origins[x].user == u
    case RefreshRevoking(x, u) => x in s.origins && s.origins[x].user == u
    case RefreshIssuing(x, u) => x in s.origins && s.origins[x].user == u
    case Issued(x) => x in s.origins && s.origins[x].issuer == p
    case _ => true
  }

  predicate IssuesFor(s: State, p: CallId) {
    p in s.calls && s.calls[p].RefreshIssuing?
  }

  /** At most one holder of a chain's tip: an unrevoked row, or the one refresh
      that has revoked it and not yet inserted its successor. */
  ghost predicate TipInv(s: State) {
    && (forall x :: Unrevoked(s, x) ==> Tip(s, x))
    && (forall p :: IssuesFor(s, p) ==>
          Tip(s, s.calls[p].session) && !Unrevoked(s, s.calls[p].session))
    && (forall p, q :: IssuesFor(s, p) && IssuesFor(s, q) && s.calls[p].session == s.calls[q].session ==> p == q)
  }

  ghost predicate Inv(s: State) {
    RowInv(s) && HashInv(s) && ChainInv(s) && CallInv(s) && TipInv(s)
  }

  // ------------------------------------------------------------- preservation

  /** The statement inserts a session. */
  predicate Inserts(s: State, a: Action) {
    && (a.Step? || (a.Fail? && a.lost)) && a.p in s.calls
    && (s.calls[a.p].LoginIssuing? || s.calls[a.p].RefreshIssuing?)
    && s.calls[a.p].user in s.users
  }

  // The statements that insert a session.

  /** id, of origin o, goes on its chain: as the first session of a login, or
      behind the tip x that the issuing call p has consumed. */
  ghost predicate Grows(s: State, t: State, p: CallId, id: SessionId, o: Origin) {
    && id !in s.origins && p in s.calls && Running(s.calls[p])
    && p in t.calls && (t.calls[p] == Issued(id) || t.calls[p] == Failed) && t.calls == s.calls[p := t.calls[p]]
    && o.issuer == p && (forall x :: x in s.origins ==> s.origins[x].hash != o.hash)
    && (o.parent.None? ==> o.login == p && p !in s.chains && !IssuesFor(s, p))
    && (o.parent.Some? ==>
          IssuesFor(s, p) && s.calls[p].session == o.parent.value
          && o.parent.value in s.origins && s.origins[o.parent.value].login == o.login
          && s.origins[o.parent.value].user == o.user)
    && t.rows.Keys == s.rows.Keys + {id} && (forall x :: x in s.rows ==> t.rows[x] == s.rows[x])
    && t.rows[id].user == o.user && t.rows[id].hash == o.hash
    && t.origins == s.origins[id := o]
    && t.chains == s.chains[o.login := Chain(o.user, SessionsOf(s, o.login) + [id])]
  }

  lemma InsertGrows(s: State, a: Action)
    requires RowInv(s) && CallInv(s) && Enabled(s, a) && Inserts(s, a)
    ensures a.id in Apply(s, a).origins && Grows(s, Apply(s, a), a.p, a.id, Apply(s, a).origins[a.id])
  {
    assert CallOk(s, a.p, s.calls[a.p]);
  }

  lemma RowInsert(s: State, t: State, p: CallId, id: SessionId, o: Origin)
    requires RowInv(s) && HashInv(s) && Grows(s, t, p, id, o)
    ensures RowInv(t) && HashInv(t)
  {
  }

  lemma StaysOnChain(s: State, t: State, p: CallId, id: SessionId, o: Origin, l: CallId, i: nat)
    requires Grows(s, t, p, id, o) && l in s.chains && i < |s.chains[l].sessions| && OnChain(s, l, i)
    ensures l in t.chains && i < |t.chains[l].sessions|
    ensures t.chains[l].user == s.chains[l].user ==> OnChain(t, l, i)
  {
  }

  /** The new session continues its chain. */
  lemma GoesOnChain(s: State, t: State, p: CallId, id: SessionId, o: Origin)
    requires Linear(s) && TipInv(s) && Grows(s, t, p, id, o)
    ensures o.login in t.chains && |t.chains[o.login].sessions| > 0
    ensures OnChain(t, o.login, |t.chains[o.login].sessions| - 1)
    ensures o.login in s.chains ==> s.chains[o.login].user == o.user
  {
    if o.parent.Some? {
      assert IssuesFor(s, p) && Tip(s, o.parent.value);
      assert OnChain(s, o.login, |s.chains[o.login].sessions| - 1);
    }
  }

  lemma StillLinear(s: State, t: State, p: CallId, id: SessionId, o: Origin)
    requires Linear(s) && TipInv(s) && Grows(s, t, p, id, o)
    ensures Linear(t)
  {
    GoesOnChain(s, t, p, id, o);
    forall m, i | m in t.chains && 0 <= i < |t.chains[m].sessions|
      ensures OnChain(t, m, i)
    {
      if m in s.chains && i < |s.chains[m].sessions| {
        StaysOnChain(s, t, p, id, o, m, i);
      }
    }
  }

  lemma StillRooted(s: State, t: State, p: CallId, id: SessionId, o: Origin)
    requires Rooted(s) && Grows(s, t, p, id, o) && (o.parent.Some? ==> o.login in s.chains)
    ensures Rooted(t)
  {
    forall l | l in t.chains
      ensures t.chains[l].sessions != [] && l in t.calls
      ensures t.calls[l] == Issued(t.chains[l].sessions[0]) || t.calls[l].Failed?
    {
      if l in s.chains {
        assert !Running(s.calls[l]) && l != p;
        if l == o.login {
          assert t.chains[l].sessions == s.chains[l].sessions + [id];
        }
      }
    }
  }

  lemma StillFiled(s: State, t: State, p: CallId, id: SessionId, o: Origin)
    requires Filed(s) && Grows(s, t, p, id, o)
    ensures Filed(t)
  {
    var older := SessionsOf(s, o.login);
    assert (older + [id])[|older|] == id;
  }

  lemma CallInsert(s: State, t: State, p: CallId, id: SessionId, o: Origin)
    requires Filed(s) && CallInv(s) && Grows(s, t, p, id, o)
    ensures CallInv(t)
  {
    forall q | q in t.calls && q != p
      ensures CallOk(t, q, t.calls[q])
    {
      assert CallOk(s, q, s.calls[q]);
    }
  }

  lemma NewTip(s: State, t: State, p: CallId, id: SessionId, o: Origin)
    requires Grows(s, t, p, id, o)
    ensures Tip(t, id)
  {
  }

  /** Another tip of s stays a tip, unless the new session was put behind it. */
  lemma OtherTip(s: State, t: State, p: CallId, id: SessionId, o: Origin, x: SessionId)
    requires TipInv(s) && Grows(s, t, p, id, o) && Tip(s, x)
    ensures Tip(t, x) || o.parent == Some(x)
  {
    if s.origins[x].login == o.login {
      assert Tip(s, s.calls[p].session);
    }
  }

  lemma TipInsert(s: State, t: State, p: CallId, id: SessionId, o: Origin)
    requires RowInv(s) && TipInv(s) && Grows(s, t, p, id, o)
    ensures TipInv(t)
  {
    NewTip(s, t, p, id, o);
    forall x | Unrevoked(t, x) && x != id
      ensures Tip(t, x)
    {
      assert Unrevoked(s, x);
      OtherTip(s, t, p, id, o, x);
    }
    forall q | IssuesFor(t, q)
      ensures IssuesFor(s, q) && Tip(t, s.calls[q].session) && !Unrevoked(t, s.calls[q].session)
    {
      assert IssuesFor(s, q) && q != p;
      OtherTip(s, t, p, id, o, s.calls[q].session);
    }
  }

  lemma InsertStep(s: State, a: Action)
    requires Inv(s) && Enabled(s, a) && Inserts(s, a)
    ensures Inv(Apply(s, a))
  {
    var t := Apply(s, a);
    InsertGrows(s, a);
    var o := t.origins[a.id];
    RowInsert(s, t, a.p, a.id, o);
    StillLinear(s, t, a.p, a.id, o);
    StillRooted(s, t, a.p, a.id, o);
    StillFiled(s, t, a.p, a.id, o);
    CallInsert(s, t, a.p, a.id, o);
    TipInsert(s, t, a.p, a.id, o);
  }

  // All other statements.

  lemma HistoryFrame(s: State, a: Action)
    requires Enabled(s, a) && !Inserts(s, a)
    ensures Apply(s, a).origins == s.origins && Apply(s, a).chains == s.chains
    ensures forall p :: p in s.calls && !Running(s.calls[p]) ==>
      p in Apply(s, a).calls && Apply(s, a).calls[p] == s.calls[p]
  {
  }

  /** Rows may change or go, but keep their user and hash, and stay revoked. */
  ghost predicate Shrinks(s: State, t: State) {
    forall x :: x in t.rows ==>
      && x in s.rows && t.rows[x].user == s.rows[x].user && t.rows[x].hash == s.rows[x].hash
      && (Unrevoked(t, x) ==> Unrevoked(s, x))
  }

  lemma RevokeShrinks(s: State, t: State, x: SessionId)
    requires t.rows == Revoked(s.rows, x, s.now)
    ensures Shrinks(s, t)
  {
  }

  /** What is not an insertion is a Revoke, or leaves the rows alone. */
  lemma OnlyRevokes(s: State, a: Action)
    requires Enabled(s, a) && (a.Step? || a.Fail?) && !Inserts(s, a)
    ensures var call := s.calls[a.p];
      Apply(s, a).rows == s.rows
      || ((call.RefreshRevoking? || call.RefreshDropping? || call.LogoutRevoking?)
          && Apply(s, a).rows == Revoked(s.rows, call.session, s.now))
  {
  }

  lemma CallsShrink(s: State, a: Action)
    requires Enabled(s, a) && (a.Step? || a.Fail?) && !Inserts(s, a)
    ensures Shrinks(s, Apply(s, a))
  {
    OnlyRevokes(s, a);
    var t := Apply(s, a);
    if t.rows != s.rows {
      RevokeShrinks(s, t, s.calls[a.p].session);
    }
  }

  lemma RowsShrink(s: State, a: Action)
    requires Enabled(s, a) && !Inserts(s, a)
    ensures Shrinks(s, Apply(s, a))
  {
    if a.Step? || a.Fail? {
      CallsShrink(s, a);
    }
  }

  lemma RowFrame(s: State, a: Action)
    requires RowInv(s) && Enabled(s, a) && !Inserts(s, a)
    ensures RowInv(Apply(s, a))
  {
    HistoryFrame(s, a);
    RowsShrink(s, a);
  }

  lemma ChainFrame(s: State, t: State)
    requires ChainInv(s) && t.origins == s.origins && t.chains == s.chains
    requires forall p :: p in s.calls && !Running(s.calls[p]) ==> p in t.calls && t.calls[p] == s.calls[p]
    ensures ChainInv(t)
  {
    forall l, i | l in t.chains && 0 <= i < |t.chains[l].sessions|
      ensures OnChain(t, l, i)
    {
      assert OnChain(s, l, i);
    }
  }

  lemma CallMove(s: State, t: State, p: CallId, call: Call)
    requires CallInv(s) && t.origins == s.origins && t.chains == s.chains
    requires t.calls == s.calls[p := call] && CallOk(s, p, call)
    ensures CallInv(t)
  {
    forall q | q in t.calls
      ensures CallOk(t, q, t.calls[q])
    {
      if q != p {
        assert CallOk(s, q, s.calls[q]);
      }
    }
  }

  lemma CallFrame(s: State, a: Action)
    requires RowInv(s) && CallInv(s) && Enabled(s, a) && a.Step? && !Inserts(s, a)
    ensures CallInv(Apply(s, a))
  {
    HistoryFrame(s, a);
    assert CallOk(s, a.p, s.calls[a.p]);
    CallMove(s, Apply(s, a), a.p, NextCall(s, s.calls[a.p], a.id));
  }

  lemma CallStart(s: State, a: Action)
    requires Rooted(s) && CallInv(s) && Enabled(s, a) && !a.Step? && !Inserts(s, a)
    ensures CallInv(Apply(s, a))
  {
    HistoryFrame(s, a);
    if a.Login? || a.Refresh? || a.Logout? || a.Fail? {
      CallMove(s, Apply(s, a), a.p, Apply(s, a).calls[a.p]);
    } else {
      assert forall q :: q in s.calls ==> CallOk(s, q, s.calls[q]);
    }
  }

  lemma TipQuiet(s: State, t: State)
    requires TipInv(s) && t.origins == s.origins && t.chains == s.chains
    requires forall x :: Unrevoked(t, x) ==> Unrevoked(s, x)
    requires forall p :: IssuesFor(t, p) ==> IssuesFor(s, p) && t.calls[p] == s.calls[p]
    ensures TipInv(t)
  {
  }

  lemma TipRevoke(s: State, t: State, p: CallId, x: SessionId, u: UserId)
    requires TipInv(s) && t.origins == s.origins && t.chains == s.chains && Unrevoked(s, x)
    requires t.rows == Revoked(s.rows, x, s.now)
    requires t.calls == s.calls[p := RefreshIssuing(x, u)]
    ensures TipInv(t)
  {
    assert forall y :: Unrevoked(t, y) ==> Unrevoked(s, y) && y != x;
    assert forall q :: IssuesFor(t, q) && q != p ==> IssuesFor(s, q);
  }

  /** Only a Revoke that hit leads to issuing a successor. */
  lemma IssuersFrame(s: State, a: Action)
    requires Enabled(s, a)
    ensures forall q :: IssuesFor(Apply(s, a), q) ==>
      (IssuesFor(s, q) && Apply(s, a).calls[q] == s.calls[q])
      || (a.Step? && a.p == q && s.calls[q].RefreshRevoking? && Unrevoked(s, s.calls[q].session))
  {
  }

  lemma TipFrame(s: State, a: Action)
    requires TipInv(s) && Enabled(s, a) && !Inserts(s, a)
    ensures TipInv(Apply(s, a))
  {
    HistoryFrame(s, a);
    if a.Step? && s.calls[a.p].RefreshRevoking? && Unrevoked(s, s.calls[a.p].session) {
      TipRevoke(s, Apply(s, a), a.p, s.calls[a.p].session, s.calls[a.p].user);
    } else {
      RowsShrink(s, a);
      IssuersFrame(s, a);
      TipQuiet(s, Apply(s, a));
    }
  }

  lemma InvStep(s: State, a: Action)
    requires Inv(s) && Enabled(s, a)
    ensures Inv(Apply(s, a))
  {
    if Inserts(s, a) {
      InsertStep(s, a);
    } else {
      HistoryFrame(s, a);
      RowFrame(s, a);
      ChainFrame(s, Apply(s, a));
      if a.Step? {
        CallFrame(s, a);
      } else {
        CallStart(s, a);
      }
      TipFrame(s, a);
    }
  }
}
