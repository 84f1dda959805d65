/** Partitioning the requested databases into per-user grants. */
module PostgresUsers {

  datatype Grant = Grant(user: string, databases: seq<string>)

  /** userDatabaseMapping. */
  const MAPPING: map<string, seq<string>> := map[
    "carbide" := ["carbide"], "forge" := ["forge"], "rla" := ["rla"], "psm" := ["psm"],
    "temporal" := ["temporal", "temporal_visibility"], "keycloak" := ["keycloak"]]

  // ------------------------------------------------------------ the meaning

  /** Every database belongs to the user of its name, but for one. */
  function Owner(db: string): string { if db == "temporal_visibility" then "temporal" else db }

  function Requested(databases: seq<string>): seq<string> {
    if databases == [] then ["carbide", "forge"] else databases
  }

  /** The requests that `user` owns, in order. */
  function OwnedBy(databases: seq<string>, user: string): seq<string> {
    if databases == [] then []
    else
      var before, last := databases[..|databases| - 1], databases[|databases| - 1];
      OwnedBy(before, user) + (if Owner(last) == user then [last] else [])
  }

  /** The first occurrences of `s`, in order. */
  function Unique(s: seq<string>): seq<string> {
    if s == [] then []
    else
      var before, last := s[..|s| - 1], s[|s| - 1];
      Unique(before) + (if last in before then [] else [last])
  }

  function Owners(databases: seq<string>): set<string> { set db | db in databases :: Owner(db) }

  /** The users the managed cluster ends up with. */
  function Users(databases: seq<string>): set<string> { Owners(Requested(databases)) }

  /** What any iteration order of the two maps must produce. */
  ghost predicate Granted(databases: seq<string>, grants: seq<Grant>) {
    && (forall i, j | 0 <= i < j < |grants| :: grants[i].user != grants[j].user)
    && (forall u :: u in Users(databases) <==> Lists(grants, u))
    && (forall i | 0 <= i < |grants| :: grants[i].databases == Unique(OwnedBy(Requested(databases), grants[i].user)))
  }

  // ---------------------------------------------------------------- as written

  lemma MappingFacts(user: string, db: string)
    requires user in MAPPING && db in MAPPING[user]
    ensures Owner(db) == user
  {
    assert |"temporal_visibility"| == 19;
  }

  /** A database outside the mapping gets a user of its own name, which is never
      the name of a mapped user. */
  lemma FallbackNeverCollides(db: string)
    requires forall u | u in MAPPING :: db !in MAPPING[u]
    ensures Owner(db) == db && db !in MAPPING
  {
    assert "temporal_visibility" in MAPPING["temporal"];
    assert forall u | u in MAPPING :: u in MAPPING[u];
  }

  /** The search for the owner, trying the users in whatever order they come. */
  method FindOwner(db: string) returns (owner: string)
    ensures owner == Owner(db)
  {
    var rest := MAPPING.Keys;
    while rest != {}
      invariant rest <= MAPPING.Keys
      invariant forall u | u in MAPPING && u !in rest :: db !in MAPPING[u]
      decreases |rest|
    {
      var user :| user in rest;
      var dbs := MAPPING[user];
      for i := 0 to |dbs|
        invariant db !in dbs[..i]
      {
        if dbs[i] == db {
          MappingFacts(user, db);
          return user;
        }
      }
      assert dbs[..|dbs|] == dbs;
      rest := rest - {user};
    }
    FallbackNeverCollides(db);
    owner := db;
  }

  method Deduplicate(dbs: seq<string>) returns (unique: seq<string>)
    ensures unique == Unique(dbs)
  {
    var seen: set<string> := {};
    unique := [];
    for i := 0 to |dbs|
      invariant forall x :: x in seen <==> x in dbs[..i]
      invariant unique == Unique(dbs[..i])
    {
      assert dbs[..i + 1][..i] == dbs[..i];
      if dbs[i] !in seen {
        seen := seen + {dbs[i]};
        unique := unique + [dbs[i]];
      }
    }
    assert dbs[..|dbs|] == dbs;
  }

  function Needs(needed: map<string, seq<string>>, u: string): seq<string> { if u in needed then needed[u] else [] }

  ghost predicate Collected(databases: seq<string>, needed: map<string, seq<string>>) {
    needed.Keys == Owners(databases) && forall u :: Needs(needed, u) == OwnedBy(databases, u)
  }

  lemma OwnersMore(s: seq<string>, db: string)
    ensures Owners(s + [db]) == Owners(s) + {Owner(db)}
  {
    forall u | u in Owners(s) + {Owner(db)} ensures u in Owners(s + [db]) {
      if u in Owners(s) {
        var x :| x in s && Owner(x) == u;
        assert x in s + [db];
      } else {
        assert db in s + [db];
      }
    }
  }

  lemma OwnedByMore(s: seq<string>, db: string, u: string)
    ensures OwnedBy(s + [db], u) == OwnedBy(s, u) + if Owner(db) == u then [db] else []
  {
    assert (s + [db])[..|s|] == s;
  }

  lemma CollectOne(s: seq<string>, needed: map<string, seq<string>>, db: string)
    requires Collected(s, needed)
    ensures Collected(s + [db], needed[Owner(db) := Needs(needed, Owner(db)) + [db]])
  {
    var more := needed[Owner(db) := Needs(needed, Owner(db)) + [db]];
    OwnersMore(s, db);
    assert more.Keys == needed.Keys + {Owner(db)};
    forall u ensures Needs(more, u) == OwnedBy(s + [db], u) {
      OwnedByMore(s, db, u);
      assert Needs(needed, u) == OwnedBy(s, u);
    }
  }

  /** The first half of buildPostgreSQLUsers: who needs what. */
  method CollectUsers(databases: seq<string>) returns (needed: map<string, seq<string>>)
    ensures Collected(databases, needed)
  {
    needed := map[];
    for i := 0 to |databases|
      invariant Collected(databases[..i], needed)
    {
      var owner := FindOwner(databases[i]);
      CollectOne(databases[..i], needed, databases[i]);
      assert databases[..i + 1] == databases[..i] + [databases[i]];
      needed := needed[owner := Needs(needed, owner) + [databases[i]]];
    }
    assert databases[..|databases|] == databases;
  }

  predicate Lists(grants: seq<Grant>, u: string) { exists i | 0 <= i < |grants| :: grants[i].user == u }

  /** The second half: one entry per user, in whatever order they come. */
  method ListGrants(needed: map<string, seq<string>>) returns (grants: seq<Grant>)
    ensures forall i, j | 0 <= i < j < |grants| :: grants[i].user != grants[j].user
    ensures forall u | u in needed :: Lists(grants, u)
    ensures forall i | 0 <= i < |grants| ::
              grants[i].user in needed && grants[i].databases == Unique(needed[grants[i].user])
  {
    grants := [];
    var rest := needed.Keys;
    while rest != {}
      invariant rest <= needed.Keys
      invariant forall u | u in needed && u !in rest :: Lists(grants, u)
      invariant forall i | 0 <= i < |grants| ::
                  grants[i].user in needed && grants[i].user !in rest
                      && grants[i].databases == Unique(needed[grants[i].user])
      invariant forall i, j | 0 <= i < j < |grants| :: grants[i].user != grants[j].user
      decreases |rest|
    {
      var user :| user in rest;
      var unique := Deduplicate(needed[user]);
      ghost var before := grants;
      grants := grants + [Grant(user, unique)];
      assert grants[|before|].user == user;
      forall u | Lists(before, u) ensures Lists(grants, u) {
        var i :| 0 <= i < |before| && before[i].user == u;
        assert grants[i].user == u;
      }
      rest := rest - {user};
    }
  }

  /** buildPostgreSQLUsers. */
  method BuildPostgreSQLUsers(requested: seq<string>) returns (grants: seq<Grant>)
    ensures Granted(requested, grants)
  {
    var databases := requested;
    if |databases| == 0 { databases := ["carbide", "forge"]; }
    var needed := CollectUsers(databases);
    grants := ListGrants(needed);
    forall i | 0 <= i < |grants| ensures grants[i].databases == Unique(OwnedBy(databases, grants[i].user)) {
      assert Needs(needed, grants[i].user) == OwnedBy(databases, grants[i].user);
    }
  }

  // ---------------------------------------------------------------- properties

  lemma {:induction false} OwnedElements(databases: seq<string>, user: string)
    ensures forall db :: db in OwnedBy(databases, user) <==> db in databases && Owner(db) == user
  {
    if databases != [] {
      var before := databases[..|databases| - 1];
      OwnedElements(before, user);
      assert databases == before + [databases[|databases| - 1]];
    }
  }

  /** Unique keeps each element, once. */
  lemma {:induction false} UniqueElements(s: seq<string>)
    ensures forall x :: x in Unique(s) <==> x in s
    ensures forall i, j | 0 <= i < j < |Unique(s)| :: Unique(s)[i] != Unique(s)[j]
  {
    if s != [] {
      UniqueElements(s[..|s| - 1]);
      assert s == s[..|s| - 1] + [s[|s| - 1]];
    }
  }

  lemma UniqueMore(s: seq<string>, x: string)
    ensures Unique(s + [x]) == Unique(s) + if x in s then [] else [x]
  {
    assert (s + [x])[..|s|] == s;
  }

  predicate FirstAt(s: seq<string>, x: string, i: nat) { i < |s| && s[i] == x && x !in s[..i] }

  ghost predicate InRequestOrder(s: seq<string>, granted: seq<string>) {
    forall a, b, p: nat, q: nat | 0 <= a < b < |granted| && FirstAt(s, granted[a], p) && FirstAt(s, granted[b], q) ::
        p < q
  }

  lemma FirstInPrefix(s: seq<string>, n: nat, x: string, p: nat)
    requires n <= |s| && x in s[..n] && FirstAt(s, x, p)
    ensures p < n && FirstAt(s[..n], x, p)
  {
    var k :| 0 <= k < n && s[..n][k] == x;
    forall m | 0 <= m < p ensures s[m] != x { assert s[..p][m] == s[m]; }
    assert s[..n][..p] == s[..p];
  }

  /** A grant lists its databases in the order in which they were first requested. */
  lemma {:induction false} GrantOrder(s: seq<string>, user: string)
    ensures InRequestOrder(s, Unique(OwnedBy(s, user)))
  {
    if s != [] {
      var n := |s| - 1;
      var owned, granted := OwnedBy(s[..n], user), Unique(OwnedBy(s, user));
      GrantOrder(s[..n], user);
      OwnedElements(s[..n], user);
      UniqueElements(owned);
      assert s == s[..n] + [s[n]];
      OwnedByMore(s[..n], s[n], user);
      UniqueMore(owned, s[n]);
      assert OwnedBy(s, user) == if Owner(s[n]) == user then owned + [s[n]] else owned;
      assert granted == Unique(owned) || (granted == Unique(owned) + [s[n]] && s[n] !in s[..n]);
      forall a, b, p: nat, q: nat
        | 0 <= a < b < |granted| && FirstAt(s, granted[a], p) && FirstAt(s, granted[b], q)
        ensures p < q
      {
        assert granted[a] in Unique(owned);
        FirstInPrefix(s, n, granted[a], p);
        if b < |Unique(owned)| {
          FirstInPrefix(s, n, granted[b], q);
        } else {
          forall m | 0 <= m < n ensures s[m] != s[n] { assert s[..n][m] == s[m]; }
        }
      }
    }
  }

  /** The grants partition the request: every requested database goes to exactly
      one user, its owner; nothing else is granted, nothing twice, and each grant is
      in the order of the request. */
  lemma GrantsPartition(databases: seq<string>, grants: seq<Grant>)
    requires Granted(databases, grants)
    ensures forall db | db in Requested(databases) ::
              exists i | 0 <= i < |grants| ::
                && grants[i].user == Owner(db) && db in grants[i].databases
                && forall j | 0 <= j < |grants| && db in grants[j].databases :: j == i
    ensures forall i | 0 <= i < |grants| ::
              && (forall db | db in grants[i].databases :: db in Requested(databases))
              && (forall a, b | 0 <= a < b < |grants[i].databases| :: grants[i].databases[a] != grants[i].databases[b])
              && InRequestOrder(Requested(databases), grants[i].databases)
  {
    forall i | 0 <= i < |grants|
      ensures forall db :: db in grants[i].databases <==> db in Requested(databases) && Owner(db) == grants[i].user
      ensures forall a, b | 0 <= a < b < |grants[i].databases| :: grants[i].databases[a] != grants[i].databases[b]
      ensures InRequestOrder(Requested(databases), grants[i].databases)
    {
      GrantOrder(Requested(databases), grants[i].user);
      OwnedElements(Requested(databases), grants[i].user);
      UniqueElements(OwnedBy(Requested(databases), grants[i].user));
    }
    forall db | db in Requested(databases)
      ensures exists i | 0 <= i < |grants| ::
                && grants[i].user == Owner(db) && db in grants[i].databases
                && forall j | 0 <= j < |grants| && db in grants[j].databases :: j == i
    {
      assert Owner(db) in Users(databases);
      var i :| 0 <= i < |grants| && grants[i].user == Owner(db);
      assert db in grants[i].databases;
    }
  }

  /** Who gets what, by name: each requested database goes to the user of its own name,
      but `temporal_visibility` to `temporal`; asking for nothing means `carbide` and
      `forge`. Nobody is granted anything else, and nobody nothing. */
  lemma GrantsByName(databases: seq<string>, grants: seq<Grant>)
    requires Granted(databases, grants)
    ensures var requested := if databases == [] then ["carbide", "forge"] else databases;
            && (forall i, db | 0 <= i < |grants| ::
                  db in grants[i].databases
                  <==> db in requested && grants[i].user == if db == "temporal_visibility" then "temporal" else db)
            && (forall db | db in requested ::
                  exists i | 0 <= i < |grants| ::
                    db in grants[i].databases
                    && grants[i].user == if db == "temporal_visibility" then "temporal" else db)
            && (forall i | 0 <= i < |grants| :: grants[i].databases != [] && grants[i].user != "temporal_visibility")
  {
    GrantsPartition(databases, grants);
    var requested := Requested(databases);
    forall i | 0 <= i < |grants| ensures grants[i].databases != [] && grants[i].user != "temporal_visibility" {
      assert Lists(grants, grants[i].user) && grants[i].user in Users(databases);
      var db :| db in requested && Owner(db) == grants[i].user;
      assert db in grants[i].databases;
      assert |"temporal_visibility"| == 19 && |"temporal"| == 8;
    }
  }

  /** Two iteration orders give the same grants, at most listed differently. */
  lemma GrantsIndependentOfOrder(databases: seq<string>, a: seq<Grant>, b: seq<Grant>)
    requires Granted(databases, a) && Granted(databases, b)
    ensures |a| == |b| && multiset(a) == multiset(b)
  {
    GrantsWithin(databases, a, b);
    GrantsWithin(databases, b, a);
    SameDistinct(a, b);
  }

  lemma GrantsWithin(databases: seq<string>, a: seq<Grant>, b: seq<Grant>)
    requires Granted(databases, a) && Granted(databases, b)
    ensures forall i | 0 <= i < |a| :: a[i] in b
  {
    forall i | 0 <= i < |a| ensures a[i] in b {
      assert a[i].user in Users(databases);
      var j :| 0 <= j < |b| && b[j].user == a[i].user;
      assert b[j] == a[i];
    }
  }

  lemma SameDistinct(a: seq<Grant>, b: seq<Grant>)
    requires forall i, j | 0 <= i < j < |a| :: a[i].user != a[j].user
    requires forall i, j | 0 <= i < j < |b| :: b[i].user != b[j].user
    requires (forall i | 0 <= i < |a| :: a[i] in b) && (forall i | 0 <= i < |b| :: b[i] in a)
    ensures |a| == |b| && multiset(a) == multiset(b)
  {
    forall g: Grant ensures multiset(a)[g] == multiset(b)[g] {
      DistinctCount(a, g);
      DistinctCount(b, g);
    }
    assert multiset(a) == multiset(b);
    assert |multiset(a)| == |a| && |multiset(b)| == |b|;
  }

  lemma {:induction false} DistinctCount(s: seq<Grant>, g: Grant)
    requires forall i, j | 0 <= i < j < |s| :: s[i].user != s[j].user
    ensures multiset(s)[g] == if g in s then 1 else 0
  {
    if s != [] {
      var before := s[..|s| - 1];
      DistinctCount(before, g);
      assert s == before + [s[|s| - 1]];
    }
  }
}
