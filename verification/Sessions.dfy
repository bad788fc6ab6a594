/** Rows of user_sessions and the statements on them.  The table in SessionStore.dfy
    and the concurrent protocol in SessionProtocol.dfy are both built on these. */
module Sessions {
  import opened Options

  type UserId = nat
  type SessionId = nat
  type Hash = nat

  datatype Session = Session(user: UserId, hash: Hash, expiresAt: int, revokedAt: Option<int>)

  type Rows = map<SessionId, Session>

  /** WHERE token_hash = $1 AND revoked_at IS NULL AND expires_at > now() */
  predicate Accepts(s: Session, hash: Hash, now: int) {
    s.hash == hash && s.revokedAt.None? && s.expiresAt > now
  }

  /** token_hash is UNIQUE. */
  ghost predicate UniqueHashes(rows: Rows) {
    forall x, y :: x in rows && y in rows && rows[x].hash == rows[y].hash ==> x == y
  }

  ghost predicate HashUsed(rows: Rows, hash: Hash) {
    exists x :: x in rows && rows[x].hash == hash
  }

  ghost function Find(rows: Rows, hash: Hash, now: int): (found: Option<SessionId>)
    ensures found.Some? ==> found.value in rows && Accepts(rows[found.value], hash, now)
    ensures found.None? ==> forall x :: x in rows ==> !Accepts(rows[x], hash, now)
  {
    if x :| x in rows && Accepts(rows[x], hash, now) then Some(x) else None
  }

  predicate Live(rows: Rows, x: SessionId) {
    x in rows && rows[x].revokedAt.None?
  }

  function Revoked(rows: Rows, x: SessionId, at: int): Rows {
    if Live(rows, x) then rows[x := rows[x].(revokedAt := Some(at))] else rows
  }

  function Touched(rows: Rows, x: SessionId, expiresAt: int): Rows {
    if Live(rows, x) then rows[x := rows[x].(expiresAt := expiresAt)] else rows
  }

  /** WHERE expires_at < now() OR revoked_at IS NOT NULL */
  predicate Expendable(s: Session, now: int) {
    s.expiresAt < now || s.revokedAt.Some?
  }

  function Cleaned(rows: Rows, now: int): Rows {
    map x | x in rows && !Expendable(rows[x], now) :: rows[x]
  }
}
