/** Role replacement: a transaction that clears a user's roles, inserts the new ones
    with one INSERT ... SELECT, and commits when the number of inserted rows equals
    the number of requested keys. */
module Roles {
  import opened Counting
  import opened Options

  type Id = nat
  type RoleId = nat

  const ALLOWED_ROLES := {"admin", "moderator", "member"}
  const ALLOWED_STATUS := {"active", "banned", "pending"}

  datatype Outcome = Ok | InvalidInput | UserNotFound | Failed

  // ---------------------------------------------------------------- the key count

  /** roles.key is UNIQUE. */
  predicate UniqueKeys(roles: map<RoleId, string>) {
    forall r, q | r in roles && q in roles && roles[r] == roles[q] :: r == q
  }

  /** SELECT id FROM roles WHERE key = ANY($2) */
  function Selected(roles: map<RoleId, string>, keys: seq<string>): set<RoleId> {
    set r | r in roles && roles[r] in keys
  }

  predicate Known(roles: map<RoleId, string>, key: string) {
    exists r | r in roles :: roles[r] == key
  }

  predicate AllKnown(roles: map<RoleId, string>, keys: seq<string>) {
    forall k | k in keys :: Known(roles, k)
  }

  predicate Distinct(keys: seq<string>) {
    forall i, j | 0 <= i < j < |keys| :: keys[i] != keys[j]
  }

  lemma DistinctTail(keys: seq<string>)
    requires keys != []
    ensures Distinct(keys) <==> keys[0] !in keys[1..] && Distinct(keys[1..])
  {
    if keys[0] !in keys[1..] && Distinct(keys[1..]) {
      forall i, j | 0 <= i < j < |keys| ensures keys[i] != keys[j] {
        assert keys[j] == keys[1..][j - 1];
        assert i > 0 ==> keys[i] == keys[1..][i - 1];
      }
    }
    if keys[0] in keys[1..] {
      var j :| 0 <= j < |keys[1..]| && keys[1..][j] == keys[0];
      assert keys[0] == keys[j + 1];
    }
    if !Distinct(keys[1..]) {
      var i, j :| 0 <= i < j < |keys[1..]| && keys[1..][i] == keys[1..][j];
      assert keys[i + 1] == keys[j + 1];
    }
  }

  lemma InCons(x: string, k: string, rest: seq<string>)
    ensures x in [k] + rest <==> x == k || x in rest
  {
  }

  lemma SelectOneMore(roles: map<RoleId, string>, k: string, rest: seq<string>, r: RoleId)
    requires r in roles && roles[r] == k && k !in rest && forall q | q in roles && roles[q] == k :: q == r
    ensures |Selected(roles, [k] + rest)| == |Selected(roles, rest)| + 1
  {
    forall q ensures q in Selected(roles, [k] + rest) <==> q == r || q in Selected(roles, rest) {
      if q in roles {
        InCons(roles[q], k, rest);
      }
    }
    assert Selected(roles, [k] + rest) == Selected(roles, rest) + {r};
  }

  lemma SelectNoMore(roles: map<RoleId, string>, k: string, rest: seq<string>)
    requires !Known(roles, k) || k in rest
    ensures Selected(roles, [k] + rest) == Selected(roles, rest)
  {
    forall q ensures q in Selected(roles, [k] + rest) <==> q in Selected(roles, rest) {
      if q in roles {
        InCons(roles[q], k, rest);
      }
    }
  }

  /** The row count equals the number of keys exactly when the keys are pairwise
      distinct and every one of them exists. */
  lemma {:induction false} RowCountDecides(roles: map<RoleId, string>, keys: seq<string>)
    requires UniqueKeys(roles)
    ensures |Selected(roles, keys)| <= |keys|
    ensures |Selected(roles, keys)| == |keys| <==> Distinct(keys) && AllKnown(roles, keys)
  {
    if keys == [] {
      assert Selected(roles, keys) == {};
    } else {
      var k, rest := keys[0], keys[1..];
      assert keys == [k] + rest;
      RowCountDecides(roles, rest);
      DistinctTail(keys);
      if Known(roles, k) && k !in rest {
        var r :| r in roles && roles[r] == k;
        SelectOneMore(roles, k, rest, r);
      } else {
        SelectNoMore(roles, k, rest);
      }
    }
  }

  // -------------------------------------------------------------------- the tables

  type Pair = (Id, RoleId)

  /** DELETE FROM user_roles WHERE user_id = $1 */
  function Cleared(rows: set<Pair>, user: Id): set<Pair> {
    set p | p in rows && p.0 != user
  }

  function RowsFor(user: Id, chosen: set<RoleId>): set<Pair> {
    set r | r in chosen :: (user, r)
  }

  /** The role keys of a user: user_roles joined with roles. */
  function KeysOf(roles: map<RoleId, string>, rows: set<Pair>, user: Id): set<string> {
    set p | p in rows && p.0 == user && p.1 in roles :: roles[p.1]
  }

  lemma InsertedKeys(roles: map<RoleId, string>, rows: set<Pair>, user: Id, keys: seq<string>)
    requires AllKnown(roles, keys)
    ensures var after := Cleared(rows, user) + RowsFor(user, Selected(roles, keys));
      && KeysOf(roles, after, user) == (set k | k in keys)
      && (forall p: Pair | p.0 != user :: p in after <==> p in rows)
      && (forall q | q in roles :: (user, q) in after <==> roles[q] in keys)
  {
    var after := Cleared(rows, user) + RowsFor(user, Selected(roles, keys));
    forall k | k in keys ensures k in KeysOf(roles, after, user) {
      var r :| r in roles && roles[r] == k;
      assert (user, r) in after;
    }
  }

  // --------------------------------------------------------------------- the store

  class UserStore {
    var users: map<Id, string>          // status
    var roles: map<RoleId, string>      // key
    var userRoles: set<Pair>

    constructor (users: map<Id, string>, roles: map<RoleId, string>)
      requires UniqueKeys(roles)
      ensures Valid() && this.users == users && this.roles == roles && userRoles == {}
    {
      this.users, this.roles, userRoles := users, roles, {};
    }

    ghost predicate Valid()
      reads this
    {
      && UniqueKeys(roles)
      && forall p | p in userRoles :: p.0 in users && p.1 in roles
    }

    /** INSERT ... SELECT: all selected rows or, when the user does not exist or has one
        of the roles already, an error. */
    method InsertRoles(user: Id, keys: seq<string>) returns (affected: nat, failed: bool)
      modifies this`userRoles
      ensures failed <==>
        (user !in users && Selected(roles, keys) != {}) || !(RowsFor(user, Selected(roles, keys)) !! old(userRoles))
      ensures failed ==> userRoles == old(userRoles)
      ensures !failed ==> affected == |Selected(roles, keys)|
      ensures !failed ==> userRoles == old(userRoles) + RowsFor(user, Selected(roles, keys))
      ensures !failed ==> forall p: Pair ::
        p in userRoles <==> p in old(userRoles) || (p.0 == user && p.1 in roles && roles[p.1] in keys)
    {
      var chosen := Selected(roles, keys);
      if user !in users && chosen != {} {
        return 0, true;
      }
      if !(RowsFor(user, chosen) !! userRoles) {
        return 0, true;
      }
      affected, failed := |chosen|, false;
      userRoles := userRoles + RowsFor(user, chosen);
    }

    /** All or nothing.  An empty list clears the roles of anyone, existing or not. */
    method UpdateRoles(user: Id, keys: seq<string>) returns (r: Outcome)
      requires Valid()
      modifies this`userRoles
      ensures Valid() && r in {Ok, Failed}
      ensures r == Ok <==> keys == [] || (user in users && Distinct(keys) && AllKnown(roles, keys))
      ensures r == Ok ==> forall q :: q in roles ==> ((user, q) in userRoles <==> roles[q] in keys)
      ensures r == Ok ==> KeysOf(roles, userRoles, user) == set k | k in keys
      ensures forall p: Pair | p.0 != user :: p in userRoles <==> p in old(userRoles)
      ensures r == Failed ==> userRoles == old(userRoles)
    {
      var saved := userRoles;
      userRoles := Cleared(userRoles, user);
      if |keys| > 0 {
        var affected, failed := InsertRoles(user, keys);
        RowCountDecides(roles, keys);
        if failed || affected != |keys| {
          userRoles := saved;
          return Failed;
        }
        InsertedKeys(roles, saved, user, keys);
      }
      r := Ok;
    }

    method UpdateStatus(user: Id, status: string) returns (r: Outcome)
      modifies this`users
      ensures r == if user in old(users) then Ok else UserNotFound
      ensures users == if user in old(users) then old(users)[user := status] else old(users)
    {
      if user !in users {
        return UserNotFound;
      }
      users := users[user := status];
      r := Ok;
    }
  }

  // ------------------------------------------------------------- the administrator

  /** strings.ToLower maps character by character; the mapping is a parameter. */
  function Lower(lower: char -> char, s: string): (t: string)
    ensures |t| == |s| && forall i | 0 <= i < |s| :: t[i] == lower(s[i])
  {
    seq(|s|, i requires 0 <= i < |s| => lower(s[i]))
  }

  function LowerAll(lower: char -> char, roles: seq<string>): (keys: seq<string>)
    ensures |keys| == |roles| && forall i | 0 <= i < |roles| :: keys[i] == Lower(lower, roles[i])
  {
    seq(|roles|, i requires 0 <= i < |roles| => Lower(lower, roles[i]))
  }

  predicate AllAllowed(keys: seq<string>) {
    forall i | 0 <= i < |keys| :: keys[i] in ALLOWED_ROLES
  }

  /** A role list is accepted when it is non-empty, names allowed roles only, and no
      role twice, letter case ignored. */
  predicate RolesAcceptable(lower: char -> char, roles: seq<string>) {
    roles != [] && AllAllowed(LowerAll(lower, roles)) && Distinct(LowerAll(lower, roles))
  }

  predicate StatusAcceptable(status: Option<string>) {
    status.None? || status.value in ALLOWED_STATUS
  }

  /** What is acceptable, spelled out. */
  lemma AcceptableIs(lower: char -> char, roles: seq<string>, status: Option<string>)
    ensures RolesAcceptable(lower, roles) <==>
      && roles != []
      && (forall i | 0 <= i < |roles| :: Lower(lower, roles[i]) in ["admin", "moderator", "member"])
      && (forall i, j | 0 <= i < j < |roles| :: Lower(lower, roles[i]) != Lower(lower, roles[j]))
    ensures StatusAcceptable(status) <==> status.None? || status.value in ["active", "banned", "pending"]
  {
    var keys := LowerAll(lower, roles);
    assert forall i | 0 <= i < |roles| :: keys[i] == Lower(lower, roles[i]);
  }

  /** The migrations insert the three roles, and nothing removes one. */
  predicate Seeded(roles: map<RoleId, string>) {
    forall k | k in ALLOWED_ROLES :: Known(roles, k)
  }

  /** By the same count, a request naming more than three roles is never accepted. */
  lemma AtMostThree(lower: char -> char, requested: seq<string>)
    requires RolesAcceptable(lower, requested)
    ensures |requested| <= 3
  {
    var keys := LowerAll(lower, requested);
    var seeded: map<RoleId, string> := map[0 := "admin", 1 := "moderator", 2 := "member"];
    assert seeded[0] == "admin" && seeded[1] == "moderator" && seeded[2] == "member";
    assert AllKnown(seeded, keys);
    RowCountDecides(seeded, keys);
    SubsetSize(Selected(seeded, keys), seeded.Keys);
  }

  class AdminService {
    const store: UserStore

    constructor (store: UserStore)
      ensures this.store == store
    {
      this.store := store;
    }

    /** The status is written first and stays written when the roles are refused. */
    method UpdateUser(lower: char -> char, id: Id, roles: Option<seq<string>>, status: Option<string>)
      returns (r: Outcome, shown: set<string>)
      requires store.Valid() && Seeded(store.roles)
      modifies store`users, store`userRoles
      ensures store.Valid()
      ensures r == Ok <==>
        id in old(store.users) && StatusAcceptable(status) && (roles.None? || RolesAcceptable(lower, roles.value))
      ensures r == Failed <==>
        && StatusAcceptable(status) && (status.Some? ==> id in old(store.users))
        && roles.Some? && roles.value != [] && AllAllowed(LowerAll(lower, roles.value))
        && (id !in old(store.users) || !Distinct(LowerAll(lower, roles.value)))
      ensures r == UserNotFound <==>
        id !in old(store.users) && StatusAcceptable(status) && (status.Some? || roles.None?)
      ensures r == Ok ==> shown == KeysOf(store.roles, store.userRoles, id)
      ensures r == Ok ==> forall k ::
        k in shown <==> exists q :: q in store.roles && (id, q) in store.userRoles && store.roles[q] == k
      ensures r == Ok && roles.Some? ==>
        KeysOf(store.roles, store.userRoles, id) == set k | k in LowerAll(lower, roles.value)
      ensures r == Ok && roles.Some? ==> forall q :: q in store.roles ==>
        ((id, q) in store.userRoles <==> store.roles[q] in LowerAll(lower, roles.value))
      ensures forall p: Pair | p.0 != id :: p in store.userRoles <==> p in old(store.userRoles)
      ensures r != Ok || roles.None? ==> store.userRoles == old(store.userRoles)
      ensures store.users ==
        if status.Some? && status.value in ALLOWED_STATUS && id in old(store.users)
        then old(store.users)[id := status.value] else old(store.users)
    {
      shown := {};
      if status.Some? {
        if status.value !in ALLOWED_STATUS {
          return InvalidInput, {};
        }
        r := store.UpdateStatus(id, status.value);
        if r != Ok {
          return r, {};
        }
      }
      if roles.Some? {
        if |roles.value| == 0 {
          return InvalidInput, {};
        }
        for i := 0 to |roles.value|
          invariant forall j | 0 <= j < i :: Lower(lower, roles.value[j]) in ALLOWED_ROLES
          modifies {}
        {
          if Lower(lower, roles.value[i]) !in ALLOWED_ROLES {
            assert LowerAll(lower, roles.value)[i] !in ALLOWED_ROLES;
            return InvalidInput, {};
          }
        }
        var keys := [];
        for i := 0 to |roles.value|
          invariant |keys| == i
          invariant forall j | 0 <= j < i :: keys[j] == Lower(lower, roles.value[j])
          modifies {}
        {
          keys := keys + [Lower(lower, roles.value[i])];
        }
        assert keys == LowerAll(lower, roles.value);
        r := store.UpdateRoles(id, keys);
        if r != Ok {
          return r, {};
        }
      }
      if id !in store.users {
        return UserNotFound, {};
      }
      r, shown := Ok, KeysOf(store.roles, store.userRoles, id);
    }
  }

  /** A refused request whose status change stays: the two role names differ only in
      letter case, so the list is rejected after the user has been banned. */
  method BannedAllTheSame(lower: char -> char) returns (r: Outcome, status: string)
    requires Lower(lower, "member") == Lower(lower, "Member") == "member"
    ensures r == Failed && status == "banned"
  {
    var roles := map[0 := "admin", 1 := "moderator", 2 := "member"];
    var store := new UserStore(map[7 := "active"], roles);
    var admin := new AdminService(store);
    assert roles[0] == "admin" && roles[1] == "moderator" && roles[2] == "member";
    var requested := ["member", "Member"];
    ghost var keys := LowerAll(lower, requested);
    assert keys[0] == keys[1] == "member";
    var shown;
    r, shown := admin.UpdateUser(lower, 7, Some(requested), Some("banned"));
    status := store.users[7];
  }
}
