/** The concurrent protocol and the uninterrupted calls are about the same code: a call
    of SessionProtocol that nobody interrupts has the effect, and the answer, that
    SessionStore gives to the whole call. */
module SessionRefinement {
  import opened Options
  import opened Sessions
  import opened SessionProtocol
  import S = SessionStore

  function Tables(s: State): S.Db {
    S.Db(s.users, s.rows)
  }

  /** Every action of the schedule belongs to call p. */
  predicate Alone(schedule: seq<Action>, p: CallId) {
    forall a | a in schedule ::
      (a.Login? || a.Refresh? || a.Logout? || a.Step?) && a.p == p
  }

  /** The call has answered: tokens for a new session, or none. */
  ghost predicate Answered(t: State, p: CallId, id: SessionId, hash: Hash, answer: S.Result) {
    && p in t.calls && !Running(t.calls[p])
    && (t.calls[p] == Issued(id) <==> answer == S.Tokens(hash))
    && (t.calls[p].Finished? <==> answer.Done?)
  }

  /** One more turn of call p in front of a run. */
  lemma Turn(s: State, step: Action, rest: seq<Action>, p: CallId) returns (schedule: seq<Action>)
    requires Enabled(s, step) && Feasible(Apply(s, step), rest) && Alone(rest, p)
    requires (step.Login? || step.Refresh? || step.Logout? || step.Step?) && step.p == p
    ensures Feasible(s, schedule) && Exec(s, schedule) == Exec(Apply(s, step), rest) && Alone(schedule, p)
  {
    ExecCons(s, step, rest);
    schedule := [step] + rest;
  }

  // ------------------------------------------------------------------- single turns

  lemma IssueTurn(s: State, step: Action, x: SessionId, u: UserId)
    requires Enabled(s, step) && step.Step? && s.calls[step.p] == RefreshIssuing(x, u) && x in s.origins
    ensures var t := Apply(s, step);
      && t.users == s.users
      && t.rows == (if u in s.users then s.rows[step.id := Session(u, step.hash, s.now + step.ttl, None)] else s.rows)
      && t.calls == s.calls[step.p := if u in s.users then Issued(step.id) else Failed]
  {
  }

  lemma RevokeTurn(s: State, step: Action, x: SessionId, u: UserId)
    requires Enabled(s, step) && step.Step? && s.calls[step.p] == RefreshRevoking(x, u) && Live(s.rows, x)
    ensures Apply(s, step)
      == s.(rows := Revoked(s.rows, x, s.now), calls := s.calls[step.p := RefreshIssuing(x, u)])
  {
  }

  lemma CheckTurn(s: State, step: Action, x: SessionId, u: UserId)
    requires Enabled(s, step) && step.Step? && s.calls[step.p] == RefreshChecking(x, u)
    ensures Apply(s, step) == s.(calls := s.calls[step.p :=
      if u !in s.users then RefreshDropping(x) else if s.users[u] then RefreshRevoking(x, u) else Failed])
  {
  }

  lemma DropTurn(s: State, step: Action, x: SessionId)
    requires Enabled(s, step) && step.Step? && s.calls[step.p] == RefreshDropping(x)
    ensures Apply(s, step) == s.(rows := Revoked(s.rows, x, s.now), calls := s.calls[step.p := Failed])
  {
  }

  lemma ReadTurn(s: State, step: Action, token: Hash)
    requires Enabled(s, step) && step.Step? && s.calls[step.p] == RefreshReading(token)
    ensures var found := Find(s.rows, token, s.now);
      Apply(s, step) == s.(calls := s.calls[step.p :=
        if found.None? then Failed else RefreshChecking(found.value, s.rows[found.value].user)])
  {
  }

  // -------------------------------------------------------------------- whole calls

  lemma RevokeAndIssue(s: State, step: Action, x: SessionId, u: UserId) returns (schedule: seq<Action>)
    requires RowInv(s) && Enabled(s, step) && step.Step? && s.calls[step.p] == RefreshRevoking(x, u)
    requires Live(s.rows, x) && u in s.users
    ensures Feasible(s, schedule) && Alone(schedule, step.p)
    ensures Exec(s, schedule).users == s.users && Exec(s, schedule).calls == s.calls[step.p := Issued(step.id)]
    ensures Exec(s, schedule).rows
      == Revoked(s.rows, x, s.now)[step.id := Session(u, step.hash, s.now + step.ttl, None)]
  {
    RevokeTurn(s, step, x, u);
    var s1 := Apply(s, step);
    IssueTurn(s1, step, x, u);
    schedule := Turn(s1, step, [], step.p);
    schedule := Turn(s, step, schedule, step.p);
  }

  lemma RotateAlone(s: State, step: Action, x: SessionId, u: UserId) returns (schedule: seq<Action>)
    requires RowInv(s) && Enabled(s, step) && step.Step? && s.calls[step.p] == RefreshChecking(x, u)
    requires Live(s.rows, x) && u in s.users && s.users[u]
    ensures Feasible(s, schedule) && Alone(schedule, step.p)
    ensures Exec(s, schedule).users == s.users && Exec(s, schedule).calls == s.calls[step.p := Issued(step.id)]
    ensures Exec(s, schedule).rows
      == Revoked(s.rows, x, s.now)[step.id := Session(u, step.hash, s.now + step.ttl, None)]
  {
    CheckTurn(s, step, x, u);
    var s1 := Apply(s, step);
    schedule := RevokeAndIssue(s1, step, x, u);
    schedule := Turn(s, step, schedule, step.p);
  }

  lemma CheckAlone(s: State, step: Action, x: SessionId, u: UserId) returns (schedule: seq<Action>)
    requires RowInv(s) && Enabled(s, step) && step.Step? && s.calls[step.p] == RefreshChecking(x, u)
    requires Live(s.rows, x) && (u !in s.users || !s.users[u])
    ensures Feasible(s, schedule) && Alone(schedule, step.p)
    ensures Exec(s, schedule).users == s.users && Exec(s, schedule).calls == s.calls[step.p := Failed]
    ensures Exec(s, schedule).rows == if u in s.users then s.rows else Revoked(s.rows, x, s.now)
  {
    CheckTurn(s, step, x, u);
    var s1 := Apply(s, step);
    if u in s.users {
      schedule := Turn(s, step, [], step.p);
    } else {
      DropTurn(s1, step, x);
      schedule := Turn(s1, step, [], step.p);
      schedule := Turn(s, step, schedule, step.p);
    }
  }

  /** A call about to read the token, as against what the whole call does. */
  lemma ReadAlone(s: State, step: Action, token: Hash) returns (schedule: seq<Action>)
    requires RowInv(s) && Enabled(s, step) && step.Step? && s.calls[step.p] == RefreshReading(token)
    ensures Feasible(s, schedule) && Alone(schedule, step.p) && Exec(s, schedule).users == s.users
    ensures var t := Exec(s, schedule);
      var found := Find(s.rows, token, s.now);
      if found.None? then t.rows == s.rows && t.calls == s.calls[step.p := Failed]
      else
        var x := found.value;
        var u := s.rows[x].user;
        if u in s.users && s.users[u] then
          t.calls == s.calls[step.p := Issued(step.id)]
          && t.rows == Revoked(s.rows, x, s.now)[step.id := Session(u, step.hash, s.now + step.ttl, None)]
        else
          t.calls == s.calls[step.p := Failed]
          && t.rows == if u in s.users then s.rows else Revoked(s.rows, x, s.now)
  {
    ReadTurn(s, step, token);
    var s1 := Apply(s, step);
    var found := Find(s.rows, token, s.now);
    if found.None? {
      schedule := [];
    } else {
      var x, u := found.value, s.rows[found.value].user;
      if u in s.users && s.users[u] {
        schedule := RotateAlone(s1, step, x, u);
      } else {
        schedule := CheckAlone(s1, step, x, u);
      }
    }
    schedule := Turn(s, step, schedule, step.p);
  }

  /** An undisturbed Refresh is the whole call. */
  lemma RefreshAlone(s: State, p: CallId, token: Hash, id: SessionId, hash: Hash, ttl: nat)
    returns (schedule: seq<Action>)
    requires RowInv(s) && p !in s.calls && Fresh(s, id, hash)
    ensures Feasible(s, schedule) && Alone(schedule, p)
    ensures var whole := S.Do(Tables(s), S.Op.Refresh(token, id, hash, s.now, ttl));
      Tables(Exec(s, schedule)) == whole.0 && Answered(Exec(s, schedule), p, id, hash, whole.1)
  {
    schedule := ReadAlone(Apply(s, Action.Refresh(p, token)), Step(p, id, hash, ttl), token);
    schedule := Turn(s, Action.Refresh(p, token), schedule, p);
  }

  lemma LoginTurn(s: State, step: Action, u: UserId)
    requires Enabled(s, step) && step.Step? && s.calls[step.p] == LoginIssuing(u) && u in s.users
    ensures var t := Apply(s, step);
      && t.users == s.users && t.rows == s.rows[step.id := Session(u, step.hash, s.now + step.ttl, None)]
      && t.calls == s.calls[step.p := Issued(step.id)]
  {
  }

  /** An undisturbed Login is the whole call. */
  lemma LoginAlone(s: State, p: CallId, user: UserId, valid: bool, id: SessionId, hash: Hash, ttl: nat)
    returns (schedule: seq<Action>)
    requires p !in s.calls && Fresh(s, id, hash)
    ensures Feasible(s, schedule) && Alone(schedule, p)
    ensures var whole := S.Do(Tables(s), S.Op.Login(user, valid, id, hash, s.now, ttl));
      Tables(Exec(s, schedule)) == whole.0 && Answered(Exec(s, schedule), p, id, hash, whole.1)
  {
    var s1 := Apply(s, Action.Login(p, user, valid));
    if user in s.users && s.users[user] && valid {
      LoginTurn(s1, Step(p, id, hash, ttl), user);
      schedule := Turn(s1, Step(p, id, hash, ttl), [], p);
    } else {
      schedule := [];
    }
    schedule := Turn(s, Action.Login(p, user, valid), schedule, p);
  }

  lemma LogoutTurns(s: State, step: Action, token: Hash) returns (schedule: seq<Action>)
    requires Enabled(s, step) && step.Step? && s.calls[step.p] == LogoutReading(token)
    ensures Feasible(s, schedule) && Alone(schedule, step.p) && Exec(s, schedule).users == s.users
    ensures Exec(s, schedule).calls == s.calls[step.p := Finished]
    ensures var found := Find(s.rows, token, s.now);
      Exec(s, schedule).rows == if found.None? then s.rows else Revoked(s.rows, found.value, s.now)
  {
    var s1 := Apply(s, step);
    if Find(s.rows, token, s.now).None? {
      schedule := [];
    } else {
      assert s1.calls[step.p] == LogoutRevoking(Find(s.rows, token, s.now).value);
      schedule := Turn(s1, step, [], step.p);
    }
    schedule := Turn(s, step, schedule, step.p);
  }

  /** An undisturbed Logout is the whole call. */
  lemma LogoutAlone(s: State, p: CallId, token: Hash, step: Action) returns (schedule: seq<Action>)
    requires p !in s.calls && step.Step? && step.p == p && Fresh(s, step.id, step.hash)
    ensures Feasible(s, schedule) && Alone(schedule, p)
    ensures var whole := S.Do(Tables(s), S.Op.Logout(token, s.now));
      Tables(Exec(s, schedule)) == whole.0 && Answered(Exec(s, schedule), p, step.id, step.hash, whole.1)
  {
    schedule := LogoutTurns(Apply(s, Action.Logout(p, token)), step, token);
    schedule := Turn(s, Action.Logout(p, token), schedule, p);
  }

  /** The single statements agree as well. */
  lemma StatementsAgree(s: State, x: SessionId, expiresAt: int, user: UserId, active: bool)
    ensures Tables(Apply(s, Action.DeleteExpired)) == S.Do(Tables(s), S.Op.DeleteExpired(s.now)).0
    ensures Tables(Apply(s, Action.Touch(x, expiresAt))) == S.Do(Tables(s), S.Op.Touch(x, expiresAt, s.now)).0
    ensures Tables(Apply(s, Action.SetUser(user, active))) == S.Do(Tables(s), S.Op.SetUser(user, active, s.now)).0
  {
  }
}
