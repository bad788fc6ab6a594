/** The guarantees of refresh-token rotation, over every feasible schedule. */
module SessionTheorems {
  import opened Options
  import opened Sessions
  import opened SessionProtocol

  lemma {:induction false} InvExec(s: State, schedule: seq<Action>)
    requires Inv(s) && Feasible(s, schedule)
    ensures Inv(Exec(s, schedule))
    decreases schedule
  {
    if schedule != [] {
      InvStep(s, schedule[0]);
      InvExec(Apply(s, schedule[0]), schedule[1..]);
    }
  }

  lemma Reached(schedule: seq<Action>)
    requires Feasible(Init(), schedule)
    ensures Inv(Exec(Init(), schedule))
  {
    InvExec(Init(), schedule);
  }

  // ---------------------------------------------------------------- state facts

  lemma Position(s: State, x: SessionId) returns (i: nat)
    requires Filed(s) && Linear(s) && x in s.origins
    ensures s.origins[x].login in s.chains && i < |s.chains[s.origins[x].login].sessions|
    ensures s.chains[s.origins[x].login].sessions[i] == x && OnChain(s, s.origins[x].login, i)
  {
    var xs := s.chains[s.origins[x].login].sessions;
    i :| 0 <= i < |xs| && xs[i] == x;
  }

  lemma {:induction false} NoRepeats(s: State, l: CallId, i: nat, j: nat)
    requires Linear(s) && l in s.chains && i < j < |s.chains[l].sessions|
    ensures s.chains[l].sessions[i] != s.chains[l].sessions[j]
  {
    assert OnChain(s, l, i) && OnChain(s, l, j);
    if i > 0 {
      NoRepeats(s, l, i - 1, j - 1);
    }
  }

  lemma SamePosition(s: State, l: CallId, i: nat, j: nat)
    requires Linear(s) && l in s.chains && i < |s.chains[l].sessions| && j < |s.chains[l].sessions|
    requires s.chains[l].sessions[i] == s.chains[l].sessions[j]
    ensures i == j
  {
    if i < j {
      NoRepeats(s, l, i, j);
    } else if j < i {
      NoRepeats(s, l, j, i);
    }
  }

  lemma Predecessor(s: State, x: SessionId) returns (l: CallId, i: nat)
    requires Filed(s) && Linear(s) && x in s.origins && s.origins[x].parent.Some?
    ensures l in s.chains && i + 1 < |s.chains[l].sessions| && s.origins[x].login == l
    ensures s.chains[l].sessions[i + 1] == x && s.chains[l].sessions[i] == s.origins[x].parent.value
    ensures s.origins[x].parent.value in s.origins && s.origins[s.origins[x].parent.value].login == l
  {
    var k := Position(s, x);
    l, i := s.origins[x].login, k - 1;
    assert OnChain(s, l, i);
  }

  lemma OneChild(s: State, x: SessionId, y: SessionId)
    requires Filed(s) && Linear(s) && x in s.origins && y in s.origins
    requires s.origins[x].parent.Some? && s.origins[x].parent == s.origins[y].parent
    ensures x == y
  {
    var l, i := Predecessor(s, x);
    var m, j := Predecessor(s, y);
    SamePosition(s, l, i, j);
  }

  lemma ParentRevoked(s: State, x: SessionId)
    requires Filed(s) && Linear(s) && TipInv(s) && x in s.origins && s.origins[x].parent.Some?
    ensures !Unrevoked(s, s.origins[x].parent.value)
  {
    var l, i := Predecessor(s, x);
    if Unrevoked(s, s.chains[l].sessions[i]) {
      assert Tip(s, s.chains[l].sessions[i]);
      SamePosition(s, l, i, |s.chains[l].sessions| - 1);
    }
  }

  lemma ChainIsLinear(s: State, l: CallId)
    requires Filed(s) && Linear(s) && TipInv(s) && l in s.chains
    ensures IsChain(s, l)
  {
    var xs := s.chains[l].sessions;
    forall x | x in xs
      ensures x in s.origins && s.origins[x].login == l
    {
      var i :| 0 <= i < |xs| && xs[i] == x;
      assert OnChain(s, l, i);
    }
    forall i | 0 <= i < |xs| - 1
      ensures !Unrevoked(s, xs[i])
    {
      assert OnChain(s, l, i + 1);
      ParentRevoked(s, xs[i + 1]);
    }
    forall i, j | 0 <= i < j < |xs|
      ensures xs[i] != xs[j]
    {
      NoRepeats(s, l, i, j);
    }
  }

  /** The chain lists the sessions of its login without repetition, each one's
      parent is its predecessor, and only the last may be unrevoked. */
  ghost predicate IsChain(s: State, l: CallId)
    requires l in s.chains
  {
    var xs := s.chains[l].sessions;
    && (forall x :: x in xs <==> x in s.origins && s.origins[x].login == l)
    && (forall i :: 0 <= i < |xs| ==> OnChain(s, l, i))
    && (forall i, j :: 0 <= i < j < |xs| ==> xs[i] != xs[j])
    && (forall i :: 0 <= i < |xs| - 1 ==> !Unrevoked(s, xs[i]))
  }

  lemma OneTip(s: State, x: SessionId, y: SessionId)
    requires TipInv(s) && Unrevoked(s, x) && Unrevoked(s, y)
    requires x in s.origins && y in s.origins && s.origins[x].login == s.origins[y].login
    ensures x == y
  {
    assert Tip(s, x) && Tip(s, y);
  }

  lemma LoginIsRoot(s: State, x: SessionId)
    requires Filed(s) && Linear(s) && Rooted(s) && RowInv(s) && x in s.rows
    ensures x in s.origins
    ensures s.origins[x].login in LoginsOf(s, s.rows[x].user) + LostLogins(s, s.rows[x].user)
  {
    var i := Position(s, x);
    assert OnChain(s, s.origins[x].login, 0);
  }

  // ------------------------------------------------------------------- theorems

  /** Sessions descending from one login form a chain. */
  lemma ChainsAreLinear(schedule: seq<Action>, l: CallId)
    requires Feasible(Init(), schedule) && l in Exec(Init(), schedule).chains
    ensures IsChain(Exec(Init(), schedule), l)
  {
    Reached(schedule);
    ChainIsLinear(Exec(Init(), schedule), l);
  }

  /** A session's parent is revoked or gone before the session exists. */
  lemma ParentRevokedFirst(schedule: seq<Action>, x: SessionId)
    requires Feasible(Init(), schedule) && x in Exec(Init(), schedule).origins
    requires Exec(Init(), schedule).origins[x].parent.Some?
    ensures !Unrevoked(Exec(Init(), schedule), Exec(Init(), schedule).origins[x].parent.value)
  {
    Reached(schedule);
    ParentRevoked(Exec(Init(), schedule), x);
  }

  /** Call p is a Refresh that consumed x and issued a successor. */
  ghost predicate Replaced(s: State, p: CallId, x: SessionId) {
    && p in s.calls && s.calls[p].Issued? && s.calls[p].session in s.origins
    && s.origins[s.calls[p].session].parent == Some(x)
  }

  lemma OneReplacer(s: State, p: CallId, q: CallId, x: SessionId)
    requires Filed(s) && Linear(s) && CallInv(s) && Replaced(s, p, x) && Replaced(s, q, x)
    ensures p == q
  {
    OneChild(s, s.calls[p].session, s.calls[q].session);
    assert CallOk(s, p, s.calls[p]) && CallOk(s, q, s.calls[q]);
  }

  /** Each session is consumed by at most one Refresh that issues a successor. */
  lemma ConsumedOnce(schedule: seq<Action>, p: CallId, q: CallId, x: SessionId)
    requires Feasible(Init(), schedule)
    requires Replaced(Exec(Init(), schedule), p, x) && Replaced(Exec(Init(), schedule), q, x)
    ensures p == q
  {
    Reached(schedule);
    OneReplacer(Exec(Init(), schedule), p, q, x);
  }

  /** At most one session per login is unrevoked. */
  lemma OneUnrevokedPerLogin(schedule: seq<Action>, x: SessionId, y: SessionId)
    requires Feasible(Init(), schedule)
    requires Unrevoked(Exec(Init(), schedule), x) && Unrevoked(Exec(Init(), schedule), y)
    requires var s := Exec(Init(), schedule);
      x in s.origins && y in s.origins && s.origins[x].login == s.origins[y].login
    ensures x == y
  {
    Reached(schedule);
    OneTip(Exec(Init(), schedule), x, y);
  }

  ghost function UnrevokedOf(s: State, u: UserId): set<SessionId> {
    set x | x in s.rows && Live(s.rows, x) && s.rows[x].user == u
  }

  /** The Login calls that have issued a session to u. */
  ghost function LoginsOf(s: State, u: UserId): set<CallId> {
    set p | p in s.calls && s.calls[p].Issued? && s.calls[p].session in s.origins
      && s.origins[s.calls[p].session].parent.None? && s.origins[s.calls[p].session].user == u
  }

  /** The Login calls for u whose INSERT took effect while its answer was lost. */
  ghost function LostLogins(s: State, u: UserId): set<CallId> {
    set p | p in s.calls && s.calls[p].Failed? && p in s.chains && s.chains[p].user == u
  }

  lemma {:induction false} InjectiveSize<X, Y>(xs: set<X>, ys: set<Y>, f: map<X, Y>)
    requires forall x :: x in xs ==> x in f && f[x] in ys
    requires forall x, y :: x in xs && y in xs && f[x] == f[y] ==> x == y
    ensures |xs| <= |ys|
  {
    if xs != {} {
      var x :| x in xs;
      InjectiveSize(xs - {x}, ys - {f[x]}, f);
    }
  }

  lemma LiveBound(s: State, u: UserId)
    requires Filed(s) && Linear(s) && Rooted(s) && RowInv(s) && TipInv(s)
    ensures |UnrevokedOf(s, u)| <= |LoginsOf(s, u)| + |LostLogins(s, u)|
  {
    var logins := LoginsOf(s, u) + LostLogins(s, u);
    forall x | x in UnrevokedOf(s, u)
      ensures x in s.origins && s.origins[x].login in logins
    {
      LoginIsRoot(s, x);
    }
    var f := map x | x in UnrevokedOf(s, u) :: s.origins[x].login;
    forall x, y | x in UnrevokedOf(s, u) && y in UnrevokedOf(s, u) && f[x] == f[y]
      ensures x == y
    {
      OneTip(s, x, y);
    }
    InjectiveSize(UnrevokedOf(s, u), logins, f);
  }

  /** A user's live sessions never exceed that user's successful logins and those
      whose success was lost on the way back. */
  lemma LiveAtMostLogins(schedule: seq<Action>, u: UserId)
    requires Feasible(Init(), schedule)
    ensures var s := Exec(Init(), schedule);
      |UnrevokedOf(s, u)| <= |LoginsOf(s, u)| + |LostLogins(s, u)|
  {
    Reached(schedule);
    LiveBound(Exec(Init(), schedule), u);
  }

  ghost predicate NothingLost(schedule: seq<Action>) {
    forall i :: 0 <= i < |schedule| && schedule[i].Fail? ==> !schedule[i].lost
  }

  /** No chain belongs to a failed Login. */
  ghost predicate NoLostLogin(s: State) {
    forall l :: l in s.chains ==> l in s.calls && s.calls[l].Issued?
  }

  lemma NoLostLoginStep(s: State, a: Action)
    requires CallInv(s) && Filed(s) && NoLostLogin(s) && RowInv(s) && Enabled(s, a) && !(a.Fail? && a.lost)
    ensures NoLostLogin(Apply(s, a))
  {
    if Inserts(s, a) {
      InsertGrows(s, a);
      assert Apply(s, a).calls[a.p].Issued?;
    } else {
      HistoryFrame(s, a);
    }
  }

  lemma {:induction false} NoLostLoginExec(s: State, schedule: seq<Action>)
    requires Inv(s) && NoLostLogin(s) && Feasible(s, schedule) && NothingLost(schedule)
    ensures NoLostLogin(Exec(s, schedule))
    decreases schedule
  {
    if schedule != [] {
      InvStep(s, schedule[0]);
      NoLostLoginStep(s, schedule[0]);
      NoLostLoginExec(Apply(s, schedule[0]), schedule[1..]);
    }
  }

  /** Where no answer is lost, the successful logins alone are the bound. */
  lemma LiveAtMostSuccessfulLogins(schedule: seq<Action>, u: UserId)
    requires Feasible(Init(), schedule) && NothingLost(schedule)
    ensures |UnrevokedOf(Exec(Init(), schedule), u)| <= |LoginsOf(Exec(Init(), schedule), u)|
  {
    LiveAtMostLogins(schedule, u);
    NoLostLoginExec(Init(), schedule);
    assert LostLogins(Exec(Init(), schedule), u) == {};
  }

  // ------------------------------------------------------- nothing comes back

  lemma RevokedStep(s: State, a: Action, x: SessionId)
    requires Enabled(s, a) && x in s.origins && !Unrevoked(s, x)
    ensures x in Apply(s, a).origins && Apply(s, a).origins[x] == s.origins[x] && !Unrevoked(Apply(s, a), x)
  {
    if !Inserts(s, a) {
      HistoryFrame(s, a);
      RowsShrink(s, a);
    }
  }

  lemma {:induction false} RevokedExec(s: State, schedule: seq<Action>, x: SessionId)
    requires Feasible(s, schedule) && x in s.origins && !Unrevoked(s, x)
    ensures x in Exec(s, schedule).origins && Exec(s, schedule).origins[x] == s.origins[x]
    ensures !Unrevoked(Exec(s, schedule), x)
    decreases schedule
  {
    if schedule != [] {
      RevokedStep(s, schedule[0], x);
      RevokedExec(Apply(s, schedule[0]), schedule[1..], x);
    }
  }

  /** Whatever happens later, sliding expiry included, the token of a revoked or
      deleted session is never accepted again. */
  lemma RevokedForever(before: seq<Action>, after: seq<Action>, x: SessionId)
    requires Feasible(Init(), before) && Feasible(Exec(Init(), before), after)
    requires x in Exec(Init(), before).origins && !Unrevoked(Exec(Init(), before), x)
    ensures Lookup(Exec(Exec(Init(), before), after), Exec(Init(), before).origins[x].hash) == None
  {
    Reached(before);
    var s := Exec(Init(), before);
    InvExec(s, after);
    RevokedExec(s, after, x);
  }

  /** No session can follow the last one of the chain any more. */
  ghost predicate Ended(s: State, l: CallId) {
    && l in s.chains
    && (forall x :: Unrevoked(s, x) && x in s.origins ==> s.origins[x].login != l)
    && (forall p :: IssuesFor(s, p) && s.calls[p].session in s.origins ==> s.origins[s.calls[p].session].login != l)
  }

  lemma EndedInsert(s: State, t: State, p: CallId, id: SessionId, o: Origin, l: CallId)
    requires RowInv(s) && TipInv(s) && Ended(s, l) && Grows(s, t, p, id, o)
    ensures Ended(t, l) && t.chains[l] == s.chains[l]
  {
    assert forall x :: Unrevoked(t, x) && x != id ==> Unrevoked(s, x);
    assert forall q :: IssuesFor(t, q) ==> IssuesFor(s, q) && Tip(s, s.calls[q].session);
  }

  lemma EndedQuiet(s: State, t: State, l: CallId)
    requires Ended(s, l) && t.origins == s.origins && t.chains == s.chains
    requires forall x :: Unrevoked(t, x) ==> Unrevoked(s, x)
    requires forall p :: IssuesFor(t, p) ==>
      (IssuesFor(s, p) && t.calls[p] == s.calls[p]) || Unrevoked(s, t.calls[p].session)
    ensures Ended(t, l)
  {
  }

  lemma EndedFrame(s: State, a: Action, l: CallId)
    requires Ended(s, l) && Enabled(s, a) && !Inserts(s, a)
    ensures Ended(Apply(s, a), l) && Apply(s, a).chains == s.chains
  {
    HistoryFrame(s, a);
    RowsShrink(s, a);
    IssuersFrame(s, a);
    EndedQuiet(s, Apply(s, a), l);
  }

  lemma {:induction false} EndedExec(s: State, schedule: seq<Action>, l: CallId)
    requires Inv(s) && Feasible(s, schedule) && Ended(s, l)
    ensures Ended(Exec(s, schedule), l) && Exec(s, schedule).chains[l] == s.chains[l]
    decreases schedule
  {
    if schedule != [] {
      var a := schedule[0];
      if Inserts(s, a) {
        InsertGrows(s, a);
        EndedInsert(s, Apply(s, a), a.p, a.id, Apply(s, a).origins[a.id], l);
      } else {
        EndedFrame(s, a, l);
      }
      InvStep(s, a);
      EndedExec(Apply(s, a), schedule[1..], l);
    }
  }

  /** The session that a failing Refresh had found, and is about to revoke or has revoked. */
  ghost predicate Rotates(s: State, p: CallId) {
    && p in s.calls
    && (s.calls[p].RefreshIssuing? || (s.calls[p].RefreshRevoking? && Unrevoked(s, s.calls[p].session)))
  }

  /** Between the two statements of the rotation: revoked, and no successor. */
  ghost predicate LeavesGap(s: State, a: Action)
    requires a.Fail? && a.p in s.calls
  {
    if s.calls[a.p].RefreshIssuing? then !Inserts(s, a) else a.lost
  }

  /** The price of revoking first: a failing Refresh ends the login for good, so that
      the user has to sign in again, if and only if its Revoke took effect and its
      INSERT did not. */
  lemma FailureEndsLogin(before: seq<Action>, a: Action, after: seq<Action>)
    requires Feasible(Init(), before) && a.Fail? && Rotates(Exec(Init(), before), a.p)
    requires Enabled(Exec(Init(), before), a) && Feasible(Apply(Exec(Init(), before), a), after)
    ensures var s := Exec(Init(), before);
      && s.calls[a.p].session in s.origins
      && (LeavesGap(s, a) <==> Ended(Apply(s, a), s.origins[s.calls[a.p].session].login))
      && (LeavesGap(s, a) ==> Ended(Exec(Apply(s, a), after), s.origins[s.calls[a.p].session].login))
  {
    Reached(before);
    var s := Exec(Init(), before);
    FailureEnds(s, a);
    InvStep(s, a);
    if LeavesGap(s, a) {
      EndedExec(Apply(s, a), after, s.origins[s.calls[a.p].session].login);
    }
  }

  lemma FailureEnds(s: State, a: Action)
    requires Inv(s) && a.Fail? && Rotates(s, a.p) && Enabled(s, a)
    ensures s.calls[a.p].session in s.origins
    ensures LeavesGap(s, a) <==> Ended(Apply(s, a), s.origins[s.calls[a.p].session].login)
  {
    assert CallOk(s, a.p, s.calls[a.p]);
    if s.calls[a.p].RefreshIssuing? {
      IssuingFails(s, a);
    } else {
      RevokingFails(s, a);
    }
  }

  lemma IssuingFails(s: State, a: Action)
    requires RowInv(s) && CallInv(s) && TipInv(s) && a.Fail? && IssuesFor(s, a.p) && Enabled(s, a)
    requires s.calls[a.p].session in s.origins
    ensures !Inserts(s, a) <==> Ended(Apply(s, a), s.origins[s.calls[a.p].session].login)
  {
    var t, x := Apply(s, a), s.calls[a.p].session;
    assert Tip(s, x);
    if Inserts(s, a) {
      InsertGrows(s, a);
      assert Unrevoked(t, a.id) && t.origins[a.id].login == s.origins[x].login;
    } else {
      NoHolderLeft(s, t, a.p, x);
    }
  }

  lemma RevokingFails(s: State, a: Action)
    requires TipInv(s) && a.Fail? && a.p in s.calls && s.calls[a.p].RefreshRevoking? && Enabled(s, a)
    requires Unrevoked(s, s.calls[a.p].session) && s.calls[a.p].session in s.origins
    ensures a.lost <==> Ended(Apply(s, a), s.origins[s.calls[a.p].session].login)
  {
    var t, x := Apply(s, a), s.calls[a.p].session;
    assert Tip(s, x);
    if a.lost {
      NoHolderLeft(s, t, a.p, x);
    } else {
      assert Unrevoked(t, x) && t.origins == s.origins;
    }
  }

  /** p was the only holder of the tip x, and gave it up. */
  lemma NoHolderLeft(s: State, t: State, p: CallId, x: SessionId)
    requires TipInv(s) && Tip(s, x) && t.origins == s.origins && t.chains == s.chains
    requires forall y :: Unrevoked(t, y) ==> Unrevoked(s, y) && y != x
    requires forall q :: IssuesFor(t, q) ==> IssuesFor(s, q) && q != p && t.calls[q] == s.calls[q]
    requires Unrevoked(s, x) || (IssuesFor(s, p) && s.calls[p].session == x)
    ensures Ended(t, s.origins[x].login)
  {
    forall y | Unrevoked(t, y) && y in t.origins ensures t.origins[y].login != s.origins[x].login {
      assert Tip(s, y);
    }
    forall q | IssuesFor(t, q) && t.calls[q].session in t.origins
      ensures t.origins[t.calls[q].session].login != s.origins[x].login
    {
      assert Tip(s, s.calls[q].session) && !Unrevoked(s, s.calls[q].session);
    }
  }

  /** The INSERT takes effect and its answer is lost. */
  lemma AnswerLost(s: State, c: Action)
    requires s.users == map[7 := true] && s.rows == map[] && s.now == 0 && s.origins == map[]
    requires s.calls == map[1 := LoginIssuing(7)] && c == Fail(1, 2, 3, 100, true)
    ensures Feasible(s, [c])
    ensures Exec(s, [c]).rows == map[2 := Session(7, 3, 100, None)] && Exec(s, [c]).calls == map[1 := Failed]
  {
    assert Feasible(Apply(s, c), []);
    ExecCons(s, c, []);
    assert [c] + [] == [c];
  }

  /** A lost answer: the user has a session and no successful login. */
  lemma LostLoginLives()
    ensures var schedule := [SetUser(7, true), Login(1, 7, true), Fail(1, 2, 3, 100, true)];
      && Feasible(Init(), schedule)
      && UnrevokedOf(Exec(Init(), schedule), 7) == {2} && LoginsOf(Exec(Init(), schedule), 7) == {}
  {
    var a, b, c := SetUser(7, true), Login(1, 7, true), Fail(1, 2, 3, 100, true);
    var s1 := Apply(Init(), a);
    var s2 := Apply(s1, b);
    AnswerLost(s2, c);
    ExecCons(s1, b, [c]);
    ExecCons(Init(), a, [b] + [c]);
    assert [a] + ([b] + [c]) == [a, b, c];
    LostLoginLeaves(Exec(s2, [c]));
  }

  lemma LostLoginLeaves(s: State)
    requires s.rows == map[2 := Session(7, 3, 100, None)] && s.calls == map[1 := Failed]
    ensures UnrevokedOf(s, 7) == {2} && LoginsOf(s, 7) == {}
  {
  }

  // ---------------------------------------------------------------- the foreign key

  /** Every session belongs to an existing user. */
  ghost predicate OwnersExist(s: State) {
    forall x :: x in s.rows ==> s.rows[x].user in s.users
  }

  lemma OwnersStep(s: State, a: Action)
    requires RowInv(s) && CallInv(s) && OwnersExist(s) && Enabled(s, a)
    ensures OwnersExist(Apply(s, a))
  {
    if Inserts(s, a) {
      InsertGrows(s, a);
      assert CallOk(s, a.p, s.calls[a.p]);
    } else {
      RowsShrink(s, a);
    }
  }

  lemma {:induction false} OwnersExec(s: State, schedule: seq<Action>)
    requires Inv(s) && OwnersExist(s) && Feasible(s, schedule)
    ensures OwnersExist(Exec(s, schedule))
    decreases schedule
  {
    if schedule != [] {
      InvStep(s, schedule[0]);
      OwnersStep(s, schedule[0]);
      OwnersExec(Apply(s, schedule[0]), schedule[1..]);
    }
  }

  /** Removing a user takes their sessions, so in every interleaving, also with users
      removed in the middle of a call, every session has its user. */
  lemma SessionsHaveUsers(schedule: seq<Action>, x: SessionId)
    requires Feasible(Init(), schedule) && x in Exec(Init(), schedule).rows
    ensures Exec(Init(), schedule).rows[x].user in Exec(Init(), schedule).users
  {
    OwnersExec(Init(), schedule);
  }
}
