/** The user_sessions table, the statements on it, and Login, Refresh and Logout
    as calls that run without interruption. */
module SessionStore {
  import opened Options
  import opened Sessions

  // ---------------------------------------------------------------------- the table

  /** The table; ids are drawn by the database and do not collide. */
  class Table {
    var rows: Rows

    ghost predicate Valid()
      reads this
    {
      UniqueHashes(rows)
    }

    constructor ()
      ensures Valid() && rows == map[]
    {
      rows := map[];
    }

    method Create(id: SessionId, user: UserId, hash: Hash, expiresAt: int) returns (ok: bool)
      requires Valid() && id !in rows
      modifies this
      ensures Valid()
      ensures ok <==> !HashUsed(old(rows), hash)
      ensures rows == if ok then old(rows)[id := Session(user, hash, expiresAt, None)] else old(rows)
    {
      ok := true;
      if exists x :: x in rows && rows[x].hash == hash {
        ok := false;
        return;
      }
      rows := rows[id := Session(user, hash, expiresAt, None)];
    }

    method GetByTokenHash(hash: Hash, now: int) returns (found: Option<SessionId>)
      requires Valid()
      ensures found == Find(rows, hash, now)
      ensures found.Some? ==>
        && found.value in rows && rows[found.value].hash == hash
        && rows[found.value].revokedAt == None && rows[found.value].expiresAt > now
      ensures found.None? ==>
        forall x :: x in rows && rows[x].hash == hash ==> rows[x].revokedAt.Some? || rows[x].expiresAt <= now
    {
      found := None;
      if exists x :: x in rows && Accepts(rows[x], hash, now) {
        var x :| x in rows && Accepts(rows[x], hash, now);
        found := Some(x);
      }
    }

    /** The number of affected rows decides whether the caller consumed the session. */
    method Revoke(x: SessionId, at: int) returns (affected: nat)
      requires Valid()
      modifies this
      ensures Valid() && rows == Revoked(old(rows), x, at)
      ensures affected == if x in old(rows) && old(rows)[x].revokedAt == None then 1 else 0
      ensures affected == 1 ==> rows == old(rows)[x := old(rows)[x].(revokedAt := Some(at))]
      ensures affected == 0 ==> rows == old(rows)
    {
      affected := 0;
      if x in rows && rows[x].revokedAt.None? {
        rows := rows[x := rows[x].(revokedAt := Some(at))];
        affected := 1;
      }
    }

    method Touch(x: SessionId, expiresAt: int) returns (affected: nat)
      requires Valid()
      modifies this
      ensures Valid() && rows == Touched(old(rows), x, expiresAt)
      ensures affected == if x in old(rows) && old(rows)[x].revokedAt == None then 1 else 0
      ensures affected == 1 ==> rows == old(rows)[x := old(rows)[x].(expiresAt := expiresAt)]
      ensures affected == 0 ==> rows == old(rows)
    {
      affected := 0;
      if x in rows && rows[x].revokedAt.None? {
        rows := rows[x := rows[x].(expiresAt := expiresAt)];
        affected := 1;
      }
    }

    method DeleteExpired(now: int) returns (affected: nat)
      requires Valid()
      modifies this
      ensures Valid() && rows == Cleaned(old(rows), now)
      ensures affected + |rows| == |old(rows)|
      ensures forall x ::
        x in rows <==> x in old(rows) && old(rows)[x].expiresAt >= now && old(rows)[x].revokedAt == None
      ensures forall x :: x in rows ==> rows[x] == old(rows)[x]
    {
      var kept := map x | x in rows && !Expendable(rows[x], now) :: rows[x];
      assert kept.Keys <= rows.Keys;
      assert rows.Keys == kept.Keys + (rows.Keys - kept.Keys);
      affected := |rows| - |kept|;
      rows := kept;
    }
  }

  // ------------------------------------------------------------------ the calls

  datatype Result =
    | Tokens(hash: Hash)
    | InvalidCredentials
    | InvalidRefresh
    | UserNotActive
    | Done
    | StoreError

  /** An entry of users: whether the account is active. */
  type Users = map<UserId, bool>

  datatype Db = Db(users: Users, rows: Rows)

  datatype Op =
    | Login(user: UserId, valid: bool, id: SessionId, hash: Hash, now: int, ttl: nat)
    | Refresh(token: Hash, id: SessionId, hash: Hash, now: int, ttl: nat)
    | Logout(token: Hash, now: int)
    | SetUser(user: UserId, active: bool, now: int)
    | Touch(session: SessionId, expiresAt: int, now: int)
    | DeleteExpired(now: int)

  function Issue(db: Db, rows: Rows, user: UserId, id: SessionId, hash: Hash, expiresAt: int): (Db, Result) {
    if user in db.users then (Db(db.users, rows[id := Session(user, hash, expiresAt, None)]), Tokens(hash))
    else (Db(db.users, rows), StoreError)
  }

  ghost function Do(db: Db, op: Op): (Db, Result) {
    match op
    case Login(u, valid, id, hash, now, ttl) =>
      if u !in db.users then (db, InvalidCredentials)
      else if !db.users[u] then (db, UserNotActive)
      else if !valid then (db, InvalidCredentials)
      else Issue(db, db.rows, u, id, hash, now + ttl)
    case Refresh(token, id, hash, now, ttl) =>
      (match Find(db.rows, token, now)
       case None => (db, InvalidRefresh)
       case Some(x) =>
         var u := db.rows[x].user;
         if u !in db.users then (Db(db.users, Revoked(db.rows, x, now)), InvalidRefresh)
         else if !db.users[u] then (db, UserNotActive)
         else Issue(db, Revoked(db.rows, x, now), u, id, hash, now + ttl))
    case Logout(token, now) =>
      (match Find(db.rows, token, now)
       case None => (db, Done)
       case Some(x) => (Db(db.users, Revoked(db.rows, x, now)), Done))
    case SetUser(u, active, _) => (Db(db.users[u := active], db.rows), Done)
    case Touch(x, expiresAt, _) =>
      (Db(db.users, Touched(db.rows, x, expiresAt)), if Live(db.rows, x) then Done else StoreError)
    case DeleteExpired(now) => (Db(db.users, Cleaned(db.rows, now)), Done)
  }

  /** Some live session carries the token, and its user exists and is active. */
  ghost predicate Renewable(users: Users, rows: Rows, token: Hash, now: int) {
    exists x :: x in rows && Accepts(rows[x], token, now) && rows[x].user in users && users[rows[x].user]
  }

  /** The session x of the token was unrevoked and not expired; it is now revoked, and
      id is a new session of the same user with the new hash and a full lifetime. */
  ghost predicate Succeeds(
    before: Rows, after: Rows, x: SessionId, token: Hash, id: SessionId, hash: Hash, now: int, ttl: nat)
  {
    && x in before && before[x].hash == token && before[x].revokedAt == None && before[x].expiresAt > now
    && after == before[x := before[x].(revokedAt := Some(now))][id := Session(before[x].user, hash, now + ttl, None)]
  }

  /** The session of the token, if it was accepted, is revoked; nothing else changes. */
  ghost predicate LoggedOut(before: Rows, after: Rows, token: Hash, now: int) {
    if exists x :: x in before && Accepts(before[x], token, now) then
      exists x :: x in before && before[x].hash == token && after == before[x := before[x].(revokedAt := Some(now))]
    else after == before
  }

  /** The service on its tables: the sequences of statements behind `Do`. */
  class AuthService {
    const sessions: Table
    var users: Users

    constructor (sessions: Table)
      ensures this.sessions == sessions && users == map[]
    {
      this.sessions := sessions;
      users := map[];
    }

    ghost function State(): Db
      reads this, sessions
    {
      Db(users, sessions.rows)
    }

    method IssueTokens(user: UserId, id: SessionId, hash: Hash, now: int, ttl: nat) returns (r: Result)
      requires sessions.Valid() && id !in sessions.rows && !HashUsed(sessions.rows, hash)
      modifies sessions
      ensures sessions.Valid()
      ensures (State(), r) == Issue(old(State()), old(sessions.rows), user, id, hash, now + ttl)
      ensures r == if user in users then Tokens(hash) else StoreError
      ensures r.Tokens? ==> sessions.rows == old(sessions.rows)[id := Session(user, hash, now + ttl, None)]
      ensures !r.Tokens? ==> sessions.rows == old(sessions.rows)
    {
      if user !in users {
        return StoreError; // the foreign key rejects the row
      }
      var ok := sessions.Create(id, user, hash, now + ttl);
      r := Tokens(hash);
    }

    method Login(user: UserId, valid: bool, id: SessionId, hash: Hash, now: int, ttl: nat) returns (r: Result)
      requires sessions.Valid() && id !in sessions.rows && !HashUsed(sessions.rows, hash)
      modifies sessions
      ensures sessions.Valid()
      ensures (State(), r) == Do(old(State()), Op.Login(user, valid, id, hash, now, ttl))
      ensures r.Tokens? <==> user in users && users[user] && valid
      ensures r.Tokens? ==>
        r.hash == hash && sessions.rows == old(sessions.rows)[id := Session(user, hash, now + ttl, None)]
      ensures !r.Tokens? ==> sessions.rows == old(sessions.rows)
      ensures r == UserNotActive <==> user in users && !users[user]
      ensures r == InvalidCredentials <==> user !in users || (users[user] && !valid)
    {
      if user !in users {
        return InvalidCredentials;
      }
      if !users[user] {
        return UserNotActive;
      }
      if !valid {
        return InvalidCredentials;
      }
      r := IssueTokens(user, id, hash, now, ttl);
    }

    method Refresh(token: Hash, id: SessionId, hash: Hash, now: int, ttl: nat) returns (r: Result)
      requires sessions.Valid() && id !in sessions.rows && !HashUsed(sessions.rows, hash)
      modifies sessions
      ensures sessions.Valid()
      ensures (State(), r) == Do(old(State()), Op.Refresh(token, id, hash, now, ttl))
      ensures r.Tokens? <==> Renewable(users, old(sessions.rows), token, now)
      ensures r.Tokens? ==>
        r.hash == hash && exists x :: Succeeds(old(sessions.rows), sessions.rows, x, token, id, hash, now, ttl)
      ensures r.Tokens? || r == InvalidRefresh ==> Find(sessions.rows, token, now) == None
      ensures r == UserNotActive ==> sessions.rows == old(sessions.rows)
      ensures r.Tokens? || r == UserNotActive || r == InvalidRefresh
      ensures forall x :: x in old(sessions.rows) && old(sessions.rows)[x].hash != token ==>
        x in sessions.rows && sessions.rows[x] == old(sessions.rows)[x]
    {
      var found := sessions.GetByTokenHash(token, now);
      if found.None? {
        return InvalidRefresh;
      }
      var user := sessions.rows[found.value].user;
      if user !in users {
        var _ := sessions.Revoke(found.value, now);
        return InvalidRefresh;
      }
      if !users[user] {
        return UserNotActive;
      }
      ghost var before := sessions.rows;
      var affected := sessions.Revoke(found.value, now);
      if affected == 0 {
        return StoreError;
      }
      r := IssueTokens(user, id, hash, now, ttl);
      assert Succeeds(before, sessions.rows, found.value, token, id, hash, now, ttl);
    }

    method Logout(token: Hash, now: int) returns (r: Result)
      requires sessions.Valid()
      modifies sessions
      ensures sessions.Valid()
      ensures (State(), r) == Do(old(State()), Op.Logout(token, now))
      ensures r == Done && Find(sessions.rows, token, now) == None
      ensures LoggedOut(old(sessions.rows), sessions.rows, token, now)
      ensures forall x :: x in old(sessions.rows) && old(sessions.rows)[x].hash != token ==>
        x in sessions.rows && sessions.rows[x] == old(sessions.rows)[x]
    {
      var found := sessions.GetByTokenHash(token, now);
      if found.Some? {
        var _ := sessions.Revoke(found.value, now);
      }
      r := Done;
    }
  }
}
