/** Runs of uninterrupted Login, Refresh and Logout calls: the clean-up of
    expired and revoked rows is invisible, and a token is accepted at most once. */
module SessionRuns {
  import opened Options
  import opened Sessions
  import opened SessionStore

  ghost function Exec(db: Db, ops: seq<Op>): Db
    decreases |ops|
  {
    if ops == [] then db else Exec(Do(db, ops[0]).0, ops[1..])
  }

  /** What the callers see; DeleteExpired has no caller. */
  ghost function Results(db: Db, ops: seq<Op>): seq<Result>
    decreases |ops|
  {
    if ops == [] then []
    else (if ops[0].DeleteExpired? then [] else [Do(db, ops[0]).1]) + Results(Do(db, ops[0]).0, ops[1..])
  }

  function WithoutCleanup(ops: seq<Op>): seq<Op>
    decreases |ops|
  {
    if ops == [] then []
    else (if ops[0].DeleteExpired? then [] else [ops[0]]) + WithoutCleanup(ops[1..])
  }

  predicate Inserting(op: Op) {
    op.Login? || op.Refresh?
  }

  /** Ids and token hashes are drawn at random: none occurs twice. */
  predicate FreshRun(ids: set<SessionId>, hashes: set<Hash>, ops: seq<Op>)
    decreases |ops|
  {
    ops == []
    || (if Inserting(ops[0])
        then ops[0].id !in ids && ops[0].hash !in hashes
             && FreshRun(ids + {ops[0].id}, hashes + {ops[0].hash}, ops[1..])
        else FreshRun(ids, hashes, ops[1..]))
  }

  /** The clock does not run backwards. */
  predicate MonotoneFrom(now: int, ops: seq<Op>)
    decreases |ops|
  {
    ops == [] || (now <= ops[0].now && MonotoneFrom(ops[0].now, ops[1..]))
  }

  ghost predicate Knows(ids: set<SessionId>, hashes: set<Hash>, rows: Rows) {
    forall x :: x in rows ==> x in ids && rows[x].hash in hashes
  }

  // ---------------------------------------------------- clean-up is invisible

  /** b is a, less some rows that no token can use any more. */
  ghost predicate Simulates(a: Rows, b: Rows, now: int) {
    && (forall x :: x in b ==> x in a && a[x] == b[x])
    && (forall x :: x in a && x !in b ==> Expendable(a[x], now))
  }

  /** The operation moves the expiry of a session that a clean-up would have removed. */
  predicate Revives(db: Db, op: Op) {
    op.Touch? && Live(db.rows, op.session) && db.rows[op.session].expiresAt < op.now
  }

  ghost predicate NoRevival(db: Db, ops: seq<Op>)
    decreases |ops|
  {
    ops == [] || (!Revives(db, ops[0]) && NoRevival(Do(db, ops[0]).0, ops[1..]))
  }

  lemma FindAgrees(a: Rows, b: Rows, token: Hash, before: int, now: int)
    requires Simulates(a, b, before) && before <= now && UniqueHashes(a)
    ensures Find(a, token, now) == Find(b, token, now)
  {
    var x, y := Find(a, token, now), Find(b, token, now);
    if x.Some? {
      assert Accepts(a[x.value], token, now);
      assert x.value in b;
    }
  }

  lemma InsertAgrees(a: Rows, b: Rows, id: SessionId, session: Session, now: int)
    requires Simulates(a, b, now) && id !in a
    ensures Simulates(a[id := session], b[id := session], now)
  {
  }

  lemma RevokeAgrees(a: Rows, b: Rows, x: SessionId, before: int, now: int)
    requires Simulates(a, b, before) && before <= now && x in b
    ensures Simulates(Revoked(a, x, now), Revoked(b, x, now), now)
  {
  }

  lemma TokenCallAgrees(users: Users, a: Rows, b: Rows, op: Op, before: int)
    requires Simulates(a, b, before) && before <= op.now && UniqueHashes(a)
    requires op.Logout? || (op.Refresh? && op.id !in a)
    ensures Do(Db(users, a), op).1 == Do(Db(users, b), op).1
    ensures Do(Db(users, a), op).0.users == Do(Db(users, b), op).0.users
    ensures Simulates(Do(Db(users, a), op).0.rows, Do(Db(users, b), op).0.rows, op.now)
  {
    FindAgrees(a, b, op.token, before, op.now);
    var x := Find(a, op.token, op.now);
    if x.Some? {
      RevokeAgrees(a, b, x.value, before, op.now);
      if op.Refresh? {
        var session := Session(a[x.value].user, op.hash, op.now + op.ttl, None);
        InsertAgrees(Revoked(a, x.value, op.now), Revoked(b, x.value, op.now), op.id, session, op.now);
      }
    }
  }

  lemma CallAgrees(users: Users, a: Rows, b: Rows, op: Op, before: int)
    requires Simulates(a, b, before) && before <= op.now && UniqueHashes(a)
    requires !op.DeleteExpired? && !Revives(Db(users, a), op) && (Inserting(op) ==> op.id !in a)
    ensures Do(Db(users, a), op).1 == Do(Db(users, b), op).1
    ensures Do(Db(users, a), op).0.users == Do(Db(users, b), op).0.users
    ensures Simulates(Do(Db(users, a), op).0.rows, Do(Db(users, b), op).0.rows, op.now)
  {
    if op.Refresh? || op.Logout? {
      TokenCallAgrees(users, a, b, op, before);
    } else if op.Login? {
      InsertAgrees(a, b, op.id, Session(op.user, op.hash, op.now + op.ttl, None), op.now);
    }
  }

  lemma StaysKnown(users: Users, rows: Rows, op: Op, ids: set<SessionId>, hashes: set<Hash>)
    requires UniqueHashes(rows) && Knows(ids, hashes, rows)
    requires Inserting(op) ==> op.id !in ids && op.hash !in hashes
    ensures UniqueHashes(Do(Db(users, rows), op).0.rows)
    ensures if Inserting(op) then Knows(ids + {op.id}, hashes + {op.hash}, Do(Db(users, rows), op).0.rows)
            else Knows(ids, hashes, Do(Db(users, rows), op).0.rows)
  {
  }

  lemma {:induction false} RunAgrees(
    users: Users, a: Rows, b: Rows, ops: seq<Op>, now: int, ids: set<SessionId>, hashes: set<Hash>)
    requires Simulates(a, b, now) && UniqueHashes(a) && Knows(ids, hashes, a)
    requires FreshRun(ids, hashes, WithoutCleanup(ops)) && MonotoneFrom(now, ops)
    requires NoRevival(Db(users, a), WithoutCleanup(ops))
    ensures Results(Db(users, a), WithoutCleanup(ops)) == Results(Db(users, b), ops)
    decreases |ops|
  {
    if ops != [] {
      var op := ops[0];
      if op.DeleteExpired? {
        assert WithoutCleanup(ops) == WithoutCleanup(ops[1..]);
        RunAgrees(users, a, Cleaned(b, op.now), ops[1..], op.now, ids, hashes);
        assert Results(Db(users, b), ops) == Results(Db(users, Cleaned(b, op.now)), ops[1..]);
      } else {
        assert WithoutCleanup(ops) == [op] + WithoutCleanup(ops[1..]);
        assert WithoutCleanup(ops)[1..] == WithoutCleanup(ops[1..]);
        CallAgrees(users, a, b, op, now);
        StaysKnown(users, a, op, ids, hashes);
        var a' := Do(Db(users, a), op).0;
        var b' := Do(Db(users, b), op).0;
        var used := if Inserting(op) then (ids + {op.id}, hashes + {op.hash}) else (ids, hashes);
        RunAgrees(a'.users, a'.rows, b'.rows, ops[1..], op.now, used.0, used.1);
      }
    }
  }

  predicate NoCleanup(calls: seq<Op>) {
    forall i :: 0 <= i < |calls| ==> !calls[i].DeleteExpired?
  }

  lemma {:induction false} NothingToStrip(calls: seq<Op>)
    requires NoCleanup(calls)
    ensures WithoutCleanup(calls) == calls
  {
    if calls != [] {
      NothingToStrip(calls[1..]);
    }
  }

  /** A clean-up right before a reviving Touch makes that Touch fail. */
  lemma TouchTellsCleanup(db: Db, op: Op)
    requires op.Touch?
    ensures Do(db, op).1 != Do(Do(db, Op.DeleteExpired(op.now)).0, op).1 <==> Revives(db, op)
  {
  }

  /** So a run that revives a session can be told from one with a clean-up in it. */
  lemma {:induction false} RevivalShows(db: Db, calls: seq<Op>, now: int) returns (ops: seq<Op>)
    requires NoCleanup(calls) && MonotoneFrom(now, calls) && !NoRevival(db, calls)
    ensures WithoutCleanup(ops) == calls && MonotoneFrom(now, ops)
    ensures Results(db, ops) != Results(db, calls)
    decreases |calls|
  {
    var op, rest := calls[0], calls[1..];
    if Revives(db, op) {
      var cleanup := Op.DeleteExpired(op.now);
      ops := [cleanup] + calls;
      assert ops[1..] == calls;
      NothingToStrip(calls);
      TouchTellsCleanup(db, op);
      var cleaned := Do(db, cleanup).0;
      assert Results(db, ops) == Results(cleaned, calls);
      assert Results(cleaned, calls)[0] == Do(cleaned, op).1;
      assert Results(db, calls)[0] == Do(db, op).1;
    } else {
      var longer := RevivalShows(Do(db, op).0, rest, op.now);
      ops := [op] + longer;
      assert ops[1..] == longer;
      assert calls == [op] + rest;
      assert !op.DeleteExpired?;
      assert Results(db, ops) == [Do(db, op).1] + Results(Do(db, op).0, longer);
      SameHead(Do(db, op).1, Results(Do(db, op).0, longer), Results(Do(db, op).0, rest));
    }
  }

  lemma SameHead(r: Result, xs: seq<Result>, ys: seq<Result>)
    requires xs != ys
    ensures [r] + xs != [r] + ys
  {
    assert ([r] + xs)[1..] == xs && ([r] + ys)[1..] == ys;
  }

  /** Whatever clean-ups are inserted into the run, no caller sees another result:
      this holds if and only if no Touch of the run revives an expired session. */
  lemma CleanupIsInvisible(db: Db, calls: seq<Op>, now: int, ids: set<SessionId>, hashes: set<Hash>)
    requires UniqueHashes(db.rows) && Knows(ids, hashes, db.rows)
    requires NoCleanup(calls) && FreshRun(ids, hashes, calls) && MonotoneFrom(now, calls)
    ensures NoRevival(db, calls) <==>
      forall ops :: WithoutCleanup(ops) == calls && MonotoneFrom(now, ops) ==> Results(db, ops) == Results(db, calls)
  {
    if NoRevival(db, calls) {
      forall ops | WithoutCleanup(ops) == calls && MonotoneFrom(now, ops)
        ensures Results(db, ops) == Results(db, calls)
      {
        RunAgrees(db.users, db.rows, db.rows, ops, now, ids, hashes);
      }
    } else {
      var ops := RevivalShows(db, calls, now);
    }
  }

  /** Such a run: the Touch revives an expired row, unless the clean-up was there
      first. */
  lemma TouchSeesCleanup()
    ensures var db := Db(map[7 := true], map[1 := Session(7, 3, 10, None)]);
      var touch := [Op.Touch(1, 50, 20), Op.Refresh(3, 2, 4, 30, 100)];
      && Results(db, touch) == [Done, Tokens(4)]
      && Results(db, [Op.DeleteExpired(20)] + touch) == [StoreError, InvalidRefresh]
  {
    var db := Db(map[7 := true], map[1 := Session(7, 3, 10, None)]);
    var touch := [Op.Touch(1, 50, 20), Op.Refresh(3, 2, 4, 30, 100)];
    var touched := Do(db, touch[0]).0;
    assert Accepts(touched.rows[1], 3, 30);
    assert touch[1..] == [touch[1]];
    assert Results(touched, [touch[1]]) == [Do(touched, touch[1]).1] + Results(Do(touched, touch[1]).0, []);
    var cleaned := Do(db, Op.DeleteExpired(20)).0;
    assert cleaned.rows == map[];
    assert ([Op.DeleteExpired(20)] + touch)[1..] == touch;
    assert Results(cleaned, touch) == [Do(cleaned, touch[0]).1] + Results(Do(cleaned, touch[0]).0, touch[1..]);
    assert Do(cleaned, touch[0]).0 == cleaned;
    assert Results(cleaned, [touch[1]]) == [Do(cleaned, touch[1]).1] + Results(Do(cleaned, touch[1]).0, []);
  }

  // ------------------------------------------------------ a token is used once

  /** No unrevoked row carries the hash. */
  ghost predicate Spent(rows: Rows, token: Hash) {
    forall x :: x in rows && rows[x].hash == token ==> rows[x].revokedAt.Some?
  }

  lemma SpentStays(db: Db, op: Op, token: Hash)
    requires Spent(db.rows, token) && (Inserting(op) ==> op.hash != token)
    ensures Spent(Do(db, op).0.rows, token)
    ensures op.Refresh? && op.token == token ==> Do(db, op).1 == InvalidRefresh
  {
  }

  ghost function ResultAt(db: Db, ops: seq<Op>, i: nat): Result
    requires i < |ops|
  {
    Do(Exec(db, ops[..i]), ops[i]).1
  }

  lemma {:induction false} ExecSplit(db: Db, ops: seq<Op>, i: nat)
    requires i < |ops|
    ensures Exec(db, ops[..i + 1]) == Do(Exec(db, ops[..i]), ops[i]).0
    decreases i
  {
    if i > 0 {
      ExecSplit(Do(db, ops[0]).0, ops[1..], i - 1);
      assert ops[1..][..i] == ops[..i + 1][1..] && ops[1..][..i - 1] == ops[..i][1..];
    }
  }

  lemma {:induction false} SpentUntil(db: Db, ops: seq<Op>, token: Hash, i: nat, j: nat)
    requires i <= j <= |ops| && Spent(Exec(db, ops[..i]).rows, token)
    requires forall k :: i <= k < |ops| && Inserting(ops[k]) ==> ops[k].hash != token
    ensures Spent(Exec(db, ops[..j]).rows, token)
    decreases j
  {
    if i < j {
      SpentUntil(db, ops, token, i, j - 1);
      ExecSplit(db, ops, j - 1);
      SpentStays(Exec(db, ops[..j - 1]), ops[j - 1], token);
    }
  }

  /** After i operations: what has been drawn so far covers the table, and the
      rest of the run is still fresh. */
  lemma {:induction false} Advance(db: Db, ops: seq<Op>, i: nat, ids: set<SessionId>, hashes: set<Hash>)
    returns (ids': set<SessionId>, hashes': set<Hash>)
    requires UniqueHashes(db.rows) && Knows(ids, hashes, db.rows) && FreshRun(ids, hashes, ops) && i <= |ops|
    ensures var rows := Exec(db, ops[..i]).rows;
      UniqueHashes(rows) && Knows(ids', hashes', rows) && FreshRun(ids', hashes', ops[i..])
    decreases i
  {
    ids', hashes' := ids, hashes;
    if i > 0 {
      StaysKnown(db.users, db.rows, ops[0], ids, hashes);
      assert ops[..i][1..] == ops[1..][..i - 1];
      var next := Do(db, ops[0]).0;
      if Inserting(ops[0]) {
        ids', hashes' := Advance(next, ops[1..], i - 1, ids + {ops[0].id}, hashes + {ops[0].hash});
      } else {
        ids', hashes' := Advance(next, ops[1..], i - 1, ids, hashes);
      }
    }
  }

  lemma {:induction false} NeverRedrawn(ids: set<SessionId>, hashes: set<Hash>, ops: seq<Op>, token: Hash, k: nat)
    requires FreshRun(ids, hashes, ops) && token in hashes && k < |ops| && Inserting(ops[k])
    ensures ops[k].hash != token
    decreases |ops|
  {
    if k > 0 {
      if Inserting(ops[0]) {
        NeverRedrawn(ids + {ops[0].id}, hashes + {ops[0].hash}, ops[1..], token, k - 1);
      } else {
        NeverRedrawn(ids, hashes, ops[1..], token, k - 1);
      }
    }
  }

  /** The operation exchanges the token for a new one, or logs it out. */
  ghost predicate Consumes(db: Db, op: Op, token: Hash) {
    && (op.Refresh? || op.Logout?) && op.token == token
    && Find(db.rows, token, op.now).Some?
    && (op.Refresh? ==> Do(db, op).1.Tokens?)
  }

  lemma ConsumingSpends(db: Db, op: Op, token: Hash)
    requires UniqueHashes(db.rows) && Consumes(db, op, token) && (op.Refresh? ==> op.hash != token)
    ensures Spent(Do(db, op).0.rows, token)
  {
  }

  /** Once a Refresh has exchanged a token, or a Logout has revoked it, no later
      Refresh accepts it, whatever runs in between. */
  lemma TokenIsUsedOnce(db: Db, ops: seq<Op>, ids: set<SessionId>, hashes: set<Hash>, token: Hash, i: nat, j: nat)
    requires UniqueHashes(db.rows) && Knows(ids, hashes, db.rows) && FreshRun(ids, hashes, ops)
    requires i < j < |ops| && Consumes(Exec(db, ops[..i]), ops[i], token)
    requires ops[j].Refresh? && ops[j].token == token
    ensures ResultAt(db, ops, j) == InvalidRefresh
  {
    var ids', hashes' := Advance(db, ops, i, ids, hashes);
    forall k | i <= k < |ops| && Inserting(ops[k])
      ensures ops[k].hash != token
    {
      NeverRedrawn(ids', hashes', ops[i..], token, k - i);
    }
    ConsumingSpends(Exec(db, ops[..i]), ops[i], token);
    ExecSplit(db, ops, i);
    SpentUntil(db, ops, token, i + 1, j);
    SpentStays(Exec(db, ops[..j]), ops[j], token);
  }
}
