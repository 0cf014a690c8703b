// Runs after runs: healing within a bounded number of them, rest after a completed one, and
// nothing left behind by a deletion.

module Settling {
  import opened CustomResource
  import opened Names
  import opened Json
  import opened Cluster
  import opened StoragePools
  import opened Convergence
  import opened Objects
  import opened Drift
  import opened ObjectProofs
  import opened Holdings
  import Cleanup
  import DaemonSets
  import ServiceAccounts
  import PoolStatuses
  import Versions

  // ----------------------------------------------------------------------------- healing

  lemma WellFormedStays(env: Setting, owner: string, a: map<Key, Tree>, b: map<Key, Tree>)
    requires WellFormed(env, a, Tracked) && ObjectsMoved(env, owner, a, b, false)
    ensures WellFormed(env, b, Tracked)
  {
    hide Aim, GoalOf, WellBuilt, WellFound, Tracked;
    var gone :| ServiceAccounts.Gone(a, owner, gone, false) && Phase(env, a - gone, b, Tracked, false);
    forall key | key in Tracked && Goals(env, key).Wanted? && key in b
      ensures WellFound(key, env.manifest(key, env.spec), b[key]) {
      if Lookup(b, key) == Lookup(a - gone, key) {
        assert key in a && a[key] == b[key];
      } else {
        assert Attained(env, a - gone, b, key);
        assert Lookup(a - gone, key).Some? ==> key in a && (a - gone)[key] == a[key];
        AimInShape(key, env.manifest(key, env.spec), Lookup(a - gone, key));
      }
    }
  }

  /** While nobody interferes, time passes, and pods may start and stop on nodes that exist. */
  ghost predicate Meanwhile(a: Store, b: Store) {
    b.daemonSets == a.daemonSets && b.objects == a.objects && (HousedIn(a) ==> HousedIn(b))
  }

  /** Failed updates in a calm cluster, with what may happen meanwhile. */
  ghost predicate FailingUpdates(env: Setting, owner: string, trace: seq<Store>, later: seq<Store>) {
    |later| == |trace| && (forall i | 0 <= i < |trace| :: Meanwhile(trace[i], later[i]))
    && forall i | 0 <= i < |trace| - 1 :: Heals(env, owner, later[i], trace[i + 1], true)
  }

  lemma {:induction false} ObstaclesFall(env: Setting, owner: string, trace: seq<Store>, later: seq<Store>, i: nat)
    requires FailingUpdates(env, owner, trace, later) && i < |trace|
    requires WellFormed(env, trace[0].objects, Tracked)
    requires HousedIn(trace[0])
    ensures WellFormed(env, trace[i].objects, Tracked) && HousedIn(trace[i])
    ensures Obstacles(trace[i], env.spec) + i <= Obstacles(trace[0], env.spec)
  {
    hide WellFormed, HousedIn, ObjectsMoved, ServiceAccounts.HasAccounts, DaemonSets.JunkCount, Mendable;
    if i > 0 {
      ObstaclesFall(env, owner, trace, later, i - 1);
      var b := later[i - 1];
      assert Meanwhile(trace[i - 1], b) && Heals(env, owner, b, trace[i - 1 + 1], true);
      WellFormedMends(env, b.objects, Tracked);
      WellFormedStays(env, owner, b.objects, trace[i].objects);
    }
  }

  /** From any state whose objects the API server vouches for and whose live CSI pods sit on nodes
      that exist: in a calm cluster at most three updates fail, so the fourth completes. */
  lemma HealsWithinFour(env: Setting, owner: string, trace: seq<Store>, later: seq<Store>)
    requires |trace| > 0 && FailingUpdates(env, owner, trace, later)
    requires WellFormed(env, trace[0].objects, Tracked)
    requires HousedIn(trace[0])
    ensures |trace| - 1 <= Obstacles(trace[0], env.spec) <= 3
  {
    hide FailingUpdates, WellFormed, HousedIn;
    ObstaclesFall(env, owner, trace, later, |trace| - 1);
    FewObstacles(trace[0], env.spec);
  }

  lemma FewObstacles(s: Store, spec: Spec)
    ensures Obstacles(s, spec) <= 3
  {
  }

  // -------------------------------------------------------------------------------- rest

  /** A completed run, on pools that agree, leaves nothing for the next one. */
  lemma CompletedIsAtRest(env: Setting, owner: string, a: Store, b: Store)
    requires DaemonSets.AllCurrent(b.daemonSets, owner, env.spec)
    requires Converged(b.view, PairsWanted(env.spec, b.daemonSets, b.pods))
             && Agree(PairsWanted(env.spec, b.daemonSets, b.pods))
    requires WellFormed(env, a.objects, Tracked) && ObjectsMoved(env, owner, a.objects, b.objects, true)
    ensures AllAtRest(env, owner, b)
  {
    hide WellFormed, Phase, Converged, Agree, AtRest, DaemonSets.AllCurrent, Resting, ServiceAccounts.IsDuplicate,
      Tracked, PairsWanted;
    var gone :| ServiceAccounts.Gone(a.objects, owner, gone, true)
                && Phase(env, a.objects - gone, b.objects, Tracked, true);
    ConvergedRests(b.view, PairsWanted(env.spec, b.daemonSets, b.pods));
    StillWellFormed(env, a.objects, gone);
    CompletedRests(env, a.objects - gone, b.objects, Tracked);
    NoDuplicatesLeft(env, a.objects, b.objects, owner, gone);
  }

  lemma StillWellFormed(env: Setting, a: map<Key, Tree>, gone: set<Key>)
    requires WellFormed(env, a, Tracked)
    ensures WellFormed(env, a - gone, Tracked)
  {
    hide Tracked, WellBuilt, WellFound;
  }

  lemma NoDuplicatesLeft(env: Setting, a: map<Key, Tree>, b: map<Key, Tree>, owner: string, gone: set<Key>)
    requires gone == ServiceAccounts.Duplicates(a, owner) && Phase(env, a - gone, b, Tracked, true)
    ensures ServiceAccounts.Duplicates(b, owner) == {}
  {
    hide Aim, GoalOf, Ownerless, ServiceAccounts.OwnedBy, ServiceAccounts.Accounts;
    TrackedApart();
    forall key ensures key !in ServiceAccounts.Duplicates(b, owner) {
      assert key !in gone || key !in a - gone;
      if key !in Tracked { assert Lookup(b, key) == Lookup(a - gone, key); }
    }
  }

  // ---------------------------------------------------------------- statuses that can settle

  /** The claims of a pool are listed in one way exactly when there is at most one: lists come in
      no particular order. */
  lemma ListedOneWay(claims: map<string, Claim>, pool: string)
    ensures (forall s: seq<ClaimStatus>, t: seq<ClaimStatus> | PoolStatuses.ListsClaims(s, claims, pool)
                                                               && PoolStatuses.ListsClaims(t, claims, pool) :: s == t)
       <==> |PoolStatuses.ClaimsOf(claims, pool)| <= 1
  {
    var all := PoolStatuses.ClaimsOf(claims, pool);
    if |all| <= 1 {
      forall s: seq<ClaimStatus>, t: seq<ClaimStatus> | PoolStatuses.ListsClaims(s, claims, pool)
                                                        && PoolStatuses.ListsClaims(t, claims, pool) ensures s == t {
        FewClaims(s, claims, pool);
        FewClaims(t, claims, pool);
        if s != [] && t != [] { OnlyOne(all, s[0].name, t[0].name); }
        EmptyListing(s, claims, pool);
        EmptyListing(t, claims, pool);
      }
    } else {
      var x :| x in all;
      assert |all - {x}| == |all| - 1;
      var y :| y in all - {x};
      assert x in all && y in all;
      var rest := Listing(claims, all - {x, y});
      var s := [ClaimStatus(x, claims[x].phase), ClaimStatus(y, claims[y].phase)] + rest;
      var t := [ClaimStatus(y, claims[y].phase), ClaimStatus(x, claims[x].phase)] + rest;
      TwoFirst(claims, pool, x, y, rest);
      TwoFirst(claims, pool, y, x, rest);
      assert PoolStatuses.ListsClaims(s, claims, pool) && PoolStatuses.ListsClaims(t, claims, pool);
      assert s[0] != t[0];
    }
  }

  lemma OnlyOne<T>(s: set<T>, x: T, y: T)
    requires |s| <= 1 && x in s && y in s
    ensures x == y
  {
    PoolStatuses.SubsetSize({x, y}, s);
  }

  lemma EmptyListing(s: seq<ClaimStatus>, claims: map<string, Claim>, pool: string)
    requires PoolStatuses.ListsClaims(s, claims, pool)
    ensures s == [] <==> PoolStatuses.ClaimsOf(claims, pool) == {}
  {
    if s != [] { assert s[0].name in PoolStatuses.ClaimsOf(claims, pool); }
    if k :| k in PoolStatuses.ClaimsOf(claims, pool) { assert PoolStatuses.Mentions(s, k); }
  }

  lemma FewClaims(s: seq<ClaimStatus>, claims: map<string, Claim>, pool: string)
    requires PoolStatuses.ListsClaims(s, claims, pool) && |PoolStatuses.ClaimsOf(claims, pool)| <= 1
    ensures |s| <= 1
  {
    if |s| > 1 { OnlyOne(PoolStatuses.ClaimsOf(claims, pool), s[0].name, s[1].name); }
  }

  ghost predicate Lists(s: seq<ClaimStatus>, claims: map<string, Claim>, names: set<string>) {
    && (forall i | 0 <= i < |s| :: s[i].name in names && s[i].name in claims && s[i].phase == claims[s[i].name].phase)
    && (forall i, j | 0 <= i < j < |s| :: s[i].name != s[j].name)
    && (forall k | k in names :: PoolStatuses.Mentions(s, k))
  }

  ghost function {:induction false} Listing(claims: map<string, Claim>, names: set<string>): (s: seq<ClaimStatus>)
    requires names <= claims.Keys
    ensures Lists(s, claims, names)
  {
    if names == {} then []
    else
      var k :| k in names;
      var rest := Listing(claims, names - {k});
      var s := [ClaimStatus(k, claims[k].phase)] + rest;
      Prepended(claims, names - {k}, k, rest);
      s
  }

  lemma Prepended(claims: map<string, Claim>, names: set<string>, k: string, rest: seq<ClaimStatus>)
    requires Lists(rest, claims, names) && k !in names && k in claims
    ensures Lists([ClaimStatus(k, claims[k].phase)] + rest, claims, names + {k})
  {
    var s := [ClaimStatus(k, claims[k].phase)] + rest;
    forall j | j in names + {k} ensures PoolStatuses.Mentions(s, j) {
      if j == k { assert s[0].name == j; } else {
        var i :| 0 <= i < |rest| && rest[i].name == j;
        assert s[i + 1].name == j;
      }
    }
  }

  lemma TwoFirst(claims: map<string, Claim>, pool: string, x: string, y: string, rest: seq<ClaimStatus>)
    requires x in PoolStatuses.ClaimsOf(claims, pool) && y in PoolStatuses.ClaimsOf(claims, pool) && x != y
    requires Lists(rest, claims, PoolStatuses.ClaimsOf(claims, pool) - {x, y})
    ensures PoolStatuses.ListsClaims([ClaimStatus(x, claims[x].phase), ClaimStatus(y, claims[y].phase)] + rest, claims,
                                     pool)
  {
    var all := PoolStatuses.ClaimsOf(claims, pool);
    Prepended(claims, all - {x, y}, y, rest);
    var one := [ClaimStatus(y, claims[y].phase)] + rest;
    Prepended(claims, all - {x, y} + {y}, x, one);
    assert all - {x, y} + {y} + {x} == all;
    assert [ClaimStatus(x, claims[x].phase)] + one == [ClaimStatus(x, claims[x].phase),
                                                       ClaimStatus(y, claims[y].phase)] + rest;
  }

  ghost function StatusNames(s: seq<PoolStatus>): seq<string> {
    seq(|s|, i requires 0 <= i < |s| => s[i].name)
  }

  ghost function PoolNames(pools: seq<StoragePool>): seq<string> {
    seq(|pools|, i requires 0 <= i < |pools| => pools[i].name)
  }

  ghost predicate Unrepeated(s: seq<string>) {
    forall i, j | 0 <= i < j < |s| :: s[i] != s[j]
  }

  ghost function Elements(s: seq<string>): set<string> {
    set n | n in s
  }

  /** With distinct names and at most one claim for each pool, a report is determined: nothing a
      run reports can differ from what is there. */
  lemma ReportsUnique(s: seq<PoolStatus>, t: seq<PoolStatus>, pools: seq<StoragePool>, m: map<string, Deployment>,
                      claims: map<string, Claim>)
    requires PoolStatuses.Reports(s, pools, m, claims) && PoolStatuses.Reports(t, pools, m, claims)
    requires Unrepeated(PoolNames(pools))
    requires forall p | p in pools && p.template.Some? :: |PoolStatuses.ClaimsOf(claims, p.name)| <= 1
    ensures s == t
  {
    hide PoolStatuses.IsStatusOf, PoolStatuses.HasPool, PoolStatuses.HasStatus, Unrepeated, Elements, StatusNames,
      PoolNames, PoolStatuses.Sorted;
    forall x, y | x in s && y in t && x.name == y.name ensures x == y {
      assert PoolStatuses.HasPool(x, pools, m, claims) && PoolStatuses.HasPool(y, pools, m, claims);
      var p, q := PoolOf(x, pools, m, claims), PoolOf(y, pools, m, claims);
      StatusName(x, p, m, claims);
      StatusName(y, q, m, claims);
      OnePool(pools, p, q);
      SameStatus(x, p, y, q, m, claims);
    }
    NamesReported(s, pools, m, claims);
    NamesReported(t, pools, m, claims);
    SortedUnique(s, t);
  }

  ghost function PoolOf(x: PoolStatus, pools: seq<StoragePool>, m: map<string, Deployment>,
                        claims: map<string, Claim>): (p: StoragePool)
    requires PoolStatuses.HasPool(x, pools, m, claims)
    ensures p in pools && PoolStatuses.IsStatusOf(x, p, m, claims)
  {
    var p :| p in pools && PoolStatuses.IsStatusOf(x, p, m, claims);
    p
  }

  ghost function StatusAt(p: StoragePool, s: seq<PoolStatus>, m: map<string, Deployment>,
                          claims: map<string, Claim>): (x: PoolStatus)
    requires PoolStatuses.HasStatus(p, s, m, claims)
    ensures x in s && PoolStatuses.IsStatusOf(x, p, m, claims)
  {
    var x :| x in s && PoolStatuses.IsStatusOf(x, p, m, claims);
    x
  }

  lemma OnePool(pools: seq<StoragePool>, p: StoragePool, q: StoragePool)
    requires Unrepeated(PoolNames(pools)) && p in pools && q in pools && p.name == q.name
    ensures p == q
  {
    var i :| 0 <= i < |pools| && pools[i] == p;
    var j :| 0 <= j < |pools| && pools[j] == q;
    assert PoolNames(pools)[i] == PoolNames(pools)[j];
  }

  lemma StatusName(x: PoolStatus, p: StoragePool, m: map<string, Deployment>, claims: map<string, Claim>)
    requires PoolStatuses.IsStatusOf(x, p, m, claims)
    ensures x.name == p.name
  {
  }

  lemma SameStatus(x: PoolStatus, p: StoragePool, y: PoolStatus, q: StoragePool, m: map<string, Deployment>,
                   claims: map<string, Claim>)
    requires PoolStatuses.IsStatusOf(x, p, m, claims) && PoolStatuses.IsStatusOf(y, q, m, claims) && p == q
    requires p.template.Some? ==> |PoolStatuses.ClaimsOf(claims, p.name)| <= 1
    ensures x == y
  {
    if p.template.Some? { ListedOneWay(claims, p.name); }
  }

  /** A report has the names of the pools, each once. */
  lemma NamesReported(s: seq<PoolStatus>, pools: seq<StoragePool>, m: map<string, Deployment>,
                      claims: map<string, Claim>)
    requires PoolStatuses.Reports(s, pools, m, claims) && Unrepeated(PoolNames(pools))
    ensures Elements(StatusNames(s)) == Elements(PoolNames(pools)) && Unrepeated(StatusNames(s))
  {
    hide PoolStatuses.IsStatusOf, PoolStatuses.HasPool, PoolStatuses.HasStatus, Unrepeated;
    var names, reported := PoolNames(pools), StatusNames(s);
    forall n | n in reported ensures n in names {
      var i :| 0 <= i < |s| && reported[i] == n;
      assert s[i] in s;
      var p := PoolOf(s[i], pools, m, claims);
      StatusName(s[i], p, m, claims);
      var j :| 0 <= j < |pools| && pools[j] == p;
      assert names[j] == n;
    }
    forall n | n in names ensures n in reported {
      var j :| 0 <= j < |pools| && names[j] == n;
      assert pools[j] in pools;
      var x := StatusAt(pools[j], s, m, claims);
      StatusName(x, pools[j], m, claims);
      var i :| 0 <= i < |s| && s[i] == x;
      assert reported[i] == n;
    }
    assert Elements(reported) == Elements(names);
    CountDistinct(names);
    NoRepetition(reported);
  }

  lemma {:induction false} CountDistinct(s: seq<string>)
    requires Unrepeated(s)
    ensures |Elements(s)| == |s|
  {
    if s != [] {
      CountDistinct(s[1..]);
      assert Elements(s) == Elements(s[1..]) + {s[0]};
    }
  }

  lemma {:induction false} AtMost(s: seq<string>)
    ensures |Elements(s)| <= |s|
  {
    if s != [] {
      AtMost(s[1..]);
      assert Elements(s) == Elements(s[1..]) + {s[0]};
    }
  }

  lemma {:induction false} NoRepetition(s: seq<string>)
    requires |Elements(s)| == |s|
    ensures Unrepeated(s)
  {
    if s != [] {
      assert Elements(s) == Elements(s[1..]) + {s[0]};
      AtMost(s[1..]);
      NoRepetition(s[1..]);
    }
  }

  lemma {:induction false} SortedUnique(s: seq<PoolStatus>, t: seq<PoolStatus>)
    requires PoolStatuses.Sorted(s) && PoolStatuses.Sorted(t)
    requires Unrepeated(StatusNames(s)) && Unrepeated(StatusNames(t))
             && Elements(StatusNames(s)) == Elements(StatusNames(t))
    requires forall x, y | x in s && y in t && x.name == y.name :: x == y
    ensures s == t
  {
    hide Versions.CompareString, PoolStatuses.Sorted, Unrepeated, Elements;
    CountDistinct(StatusNames(s));
    CountDistinct(StatusNames(t));
    if s != [] {
      SameFirst(s, t);
      assert s[0] in s && t[0] in t;
      TailNames(s);
      TailNames(t);
      SortedUnique(s[1..], t[1..]);
    }
  }

  lemma SameFirst(s: seq<PoolStatus>, t: seq<PoolStatus>)
    requires PoolStatuses.Sorted(s) && PoolStatuses.Sorted(t) && s != [] && t != []
    requires Elements(StatusNames(s)) == Elements(StatusNames(t))
    ensures s[0].name == t[0].name
  {
    hide Versions.CompareString;
    var n, k := StatusNames(s)[0], StatusNames(t)[0];
    assert n in Elements(StatusNames(t)) && k in Elements(StatusNames(s));
    var i :| 0 <= i < |t| && StatusNames(t)[i] == n;
    var j :| 0 <= j < |s| && StatusNames(s)[j] == k;
    Versions.CompareStringOrder(n, k, "");
    Versions.CompareStringOrder(n, n, "");
    assert Versions.CompareString(k, n) <= 0 && Versions.CompareString(n, k) <= 0;
  }

  lemma TailNames(s: seq<PoolStatus>)
    requires s != [] && Unrepeated(StatusNames(s))
    ensures PoolStatuses.Sorted(s) ==> PoolStatuses.Sorted(s[1..])
    ensures Unrepeated(StatusNames(s[1..])) && Elements(StatusNames(s[1..])) == Elements(StatusNames(s)) - {s[0].name}
  {
    assert StatusNames(s) == [s[0].name] + StatusNames(s[1..]);
    var tail := StatusNames(s[1..]);
    forall i | 0 <= i < |tail| ensures tail[i] != s[0].name { assert StatusNames(s)[0] != StatusNames(s)[i + 1]; }
    forall i, j | 0 <= i < j < |tail| ensures tail[i] != tail[j] {
      assert tail[i] == StatusNames(s)[i + 1] && tail[j] == StatusNames(s)[j + 1];
    }
  }

  /** A pool with two claims can be listed in another way than it is. */
  lemma AnotherListing(claims: map<string, Claim>, pool: string, listed: seq<ClaimStatus>)
    requires |PoolStatuses.ClaimsOf(claims, pool)| > 1
    ensures exists other :: PoolStatuses.ListsClaims(other, claims, pool) && other != listed
  {
    ListedOneWay(claims, pool);
    var s: seq<ClaimStatus>, t: seq<ClaimStatus> :| PoolStatuses.ListsClaims(s, claims, pool)
                                                    && PoolStatuses.ListsClaims(t, claims, pool) && s != t;
  }

  lemma AnotherReport(s: seq<PoolStatus>, pools: seq<StoragePool>, m: map<string, Deployment>,
                      claims: map<string, Claim>, p: StoragePool)
    requires PoolStatuses.Reports(s, pools, m, claims) && Unrepeated(PoolNames(pools))
    requires p in pools && p.template.Some? && |PoolStatuses.ClaimsOf(claims, p.name)| > 1
    ensures exists t :: PoolStatuses.Reports(t, pools, m, claims) && t != s
  {
    hide PoolStatuses.HasPool, PoolStatuses.HasStatus, PoolStatuses.ListsClaims, PoolStatuses.ClaimsOf, Unrepeated,
      Versions.CompareString;
    var x := StatusAt(p, s, m, claims);
    var i :| 0 <= i < |s| && s[i] == x;
    AnotherListing(claims, p.name, x.claims);
    var l :| PoolStatuses.ListsClaims(l, claims, p.name) && l != x.claims;
    var y := x.(claims := l);
    var t := s[i := y];
    assert PoolStatuses.IsStatusOf(y, p, m, claims);
    assert t[i] == y;
    Introduce(y, p, pools, t, m, claims);
    forall z | z in t ensures PoolStatuses.HasPool(z, pools, m, claims) {
      if z != y { assert z in s; }
    }
    forall q | q in pools ensures PoolStatuses.HasStatus(q, t, m, claims) {
      if q != p {
        var z := StatusAt(q, s, m, claims);
        var j :| 0 <= j < |s| && s[j] == z;
        if z.name == x.name { OnePool(pools, p, q); }
        assert t[j] == z;
        Introduce(z, q, pools, t, m, claims);
      }
    }
    assert forall j | 0 <= j < |s| :: t[j].name == s[j].name;
    assert PoolStatuses.Sorted(t);
    assert t[i] != s[i];
    assert PoolStatuses.Reports(t, pools, m, claims) && t != s;
  }

  lemma Introduce(x: PoolStatus, p: StoragePool, pools: seq<StoragePool>, s: seq<PoolStatus>,
                  m: map<string, Deployment>, claims: map<string, Claim>)
    requires PoolStatuses.IsStatusOf(x, p, m, claims) && p in pools && x in s
    ensures PoolStatuses.HasPool(x, pools, m, claims) && PoolStatuses.HasStatus(p, s, m, claims)
  {
  }

  // ------------------------------------------------------------------- the numbers add up

  /** The deployments that carry the label of a reported pool with one of these names. */
  ghost function CountedNamed(m: map<string, Deployment>, pools: seq<StoragePool>, names: set<string>): set<string> {
    set k, p | p in pools && p.template.Some? && p.name in names && k in PoolStatuses.DeploymentsOf(m, p.name) :: k
  }

  lemma CountedBesides(m: map<string, Deployment>, pools: seq<StoragePool>, p: StoragePool, names: set<string>)
    requires Unrepeated(PoolNames(pools)) && p in pools && p.name !in names
    requires forall q | q in pools :: 0 < |q.name| <= ADMITTED_LENGTH
    ensures CountedNamed(m, pools, names + {p.name}) == PoolStatuses.CountedForOne(m, p) + CountedNamed(m, pools, names)
    ensures PoolStatuses.CountedForOne(m, p) !! CountedNamed(m, pools, names)
  {
    hide PoolStatuses.DeploymentsOf, Unrepeated;
    forall k | k in CountedNamed(m, pools, names + {p.name})
      ensures k in PoolStatuses.CountedForOne(m, p) + CountedNamed(m, pools, names) {
      var q :| q in pools && q.template.Some? && q.name in names + {p.name}
               && k in PoolStatuses.DeploymentsOf(m, q.name);
      if q.name == p.name { OnePool(pools, p, q); }
    }
    forall k | k in CountedNamed(m, pools, names) ensures k !in PoolStatuses.CountedForOne(m, p) {
      var q :| q in pools && q.template.Some? && q.name in names && k in PoolStatuses.DeploymentsOf(m, q.name);
      PoolStatuses.DisjointLabels(m, p.name, q.name);
    }
  }

  lemma {:induction false} TotalNamed(s: seq<PoolStatus>, pools: seq<StoragePool>, m: map<string, Deployment>,
                                      claims: map<string, Claim>)
    requires Unrepeated(PoolNames(pools)) && Unrepeated(StatusNames(s)) && forall x | x in s ::
               PoolStatuses.HasPool(x, pools, m, claims)
    requires forall q | q in pools :: 0 < |q.name| <= ADMITTED_LENGTH
    ensures PoolStatuses.TotalDesired(s) == |CountedNamed(m, pools, Elements(StatusNames(s)))|
  {
    hide PoolStatuses.IsStatusOf, PoolStatuses.HasPool, PoolStatuses.DeploymentsOf, Unrepeated;
    if s == [] {
      assert CountedNamed(m, pools, Elements(StatusNames(s))) == {};
    } else {
      var p := PoolOf(s[0], pools, m, claims);
      StatusName(s[0], p, m, claims);
      PoolStatuses.CountOf(s[0], p, m, claims);
      TailNames(s);
      TotalNamed(s[1..], pools, m, claims);
      assert StatusNames(s)[0] == p.name;
      assert Elements(StatusNames(s)) == Elements(StatusNames(s[1..])) + {p.name};
      CountedBesides(m, pools, p, Elements(StatusNames(s[1..])));
    }
  }

  /** What is stored adds up: over admitted pools, the reported deployments are exactly as many as carry
      the label of some reported pool, and all of them are managed. */
  lemma ReportAddsUp(s: seq<PoolStatus>, pools: seq<StoragePool>, m: map<string, Deployment>,
                     claims: map<string, Claim>)
    requires PoolStatuses.Reports(s, pools, m, claims) && Unrepeated(PoolNames(pools))
    requires forall q | q in pools :: 0 < |q.name| <= ADMITTED_LENGTH
    ensures PoolStatuses.TotalDesired(s) == |PoolStatuses.CountedFor(m, pools)| <= |Cleanup.ManagedOf(m)|
  {
    hide PoolStatuses.DeploymentsOf, PoolStatuses.HasPool, PoolStatuses.HasStatus, Unrepeated, Cleanup.ManagedOf,
      PoolStatuses.TotalDesired;
    NamesReported(s, pools, m, claims);
    TotalNamed(s, pools, m, claims);
    PoolStatuses.CountedAreManaged(m, pools);
    forall p | p in pools ensures p.name in Elements(PoolNames(pools)) {
      var i :| 0 <= i < |pools| && pools[i] == p;
      assert PoolNames(pools)[i] == p.name;
    }
    assert CountedNamed(m, pools, Elements(StatusNames(s))) == PoolStatuses.CountedFor(m, pools);
  }

  // ------------------------------------------------------------------ which objects, and when

  /** The objects that are the operator's business, by kind and name. */
  predicate Known(key: Key) {
    match key.kind
    case ClusterRole => key.name == "hostpath-provisioner" || key.name == "hostpath-provisioner-admin-csi"
    case ClusterRoleBinding => key.name == "hostpath-provisioner" || key.name == "hostpath-provisioner-admin-csi"
    case Role => key.name == "hostpath-provisioner-admin-csi" || key.name == "hostpath-provisioner-monitoring"
    case RoleBinding => key.name == "hostpath-provisioner-admin-csi" || key.name == "hostpath-provisioner-monitoring"
    case CSIDriver => key.name == "kubevirt.io.hostpath-provisioner"
    case SecurityContextConstraints => key.name == "hostpath-provisioner" || key.name == "hostpath-provisioner-csi"
    case PrometheusRule => key.name == "prometheus-hpp-rules"
    case Service => key.name == "hpp-prometheus-metrics"
    case ServiceMonitor => key.name == "service-monitor-hpp"
    case ServiceAccount => key.name == "hostpath-provisioner-admin" || key.name == "hostpath-provisioner-admin-csi"
  }

  predicate ForMonitoring(key: Key) {
    key.kind.PrometheusRule? || key.kind.Service? || key.kind.ServiceMonitor?
    || key.name == "hostpath-provisioner-monitoring"
  }

  predicate ForLegacy(key: Key) {
    key.name == if key.kind.ServiceAccount? then "hostpath-provisioner-admin" else "hostpath-provisioner"
  }

  /** The API group that a kind of object needs is served. */
  predicate GroupServed(scc: bool, prometheus: bool, key: Key) {
    (key.kind.SecurityContextConstraints? ==> scc) && (ForMonitoring(key) ==> prometheus)
  }

  /** What a spec asks for, object by object: what needs an API group that is not served is left alone; what
      only the legacy provisioner uses is wanted with a path config and has to go without; and the rest is
      always wanted. A run goes through all of them. */
  lemma GoalMeans(spec: Spec, scc: bool, prometheus: bool, key: Key)
    ensures GoalOf(spec, scc, prometheus, key) ==
            if !Known(key) || !GroupServed(scc, prometheus, key) then Ignored
            else if ForLegacy(key) && spec.pathConfig.None? then Unwanted
            else Wanted
    ensures Known(key) <==> key in Tracked
  {
    hide Tracked;
    TrackedMeans(key);
  }

  lemma TrackedMeans(key: Key)
    ensures Known(key) <==> key in Tracked
  {
  }

  /** What a deletion removes: each of the four kinds of access control under three names, the driver, and what
      the API groups that are served are needed for. */
  lemma DoomedMeans(scc: bool, prometheus: bool, key: Key)
    ensures key in Doomed(scc, prometheus) <==>
            || (key.kind in {ClusterRole, ClusterRoleBinding, Role, RoleBinding}
                && key.name in {"hostpath-provisioner-admin", "hostpath-provisioner-admin-csi",
                                "hostpath-provisioner"})
            || (Known(key) && (key.kind.CSIDriver? || (prometheus && ForMonitoring(key))
                               || (scc && key.kind.SecurityContextConstraints?)))
  {
  }

  // --------------------------------------------------------------- what a run leaves alone

  /** A service account that an earlier version named after the custom resource, which owns it. */
  predicate FromBefore(key: Key, t: Tree, owner: string) {
    && key.kind.ServiceAccount?
    && "k8s-app" in Section(t, "labels").fields
    && (Section(t, "labels").fields["k8s-app"] == Str("hostpath-provisioner")
        || Section(t, "labels").fields["k8s-app"] == Str(owner))
    && "ownerReferences" in Meta(t).fields && Meta(t).fields["ownerReferences"].Arr?
    && exists ref | ref in Meta(t).fields["ownerReferences"].items ::
         ref.Obj? && "kind" in ref.fields && ref.fields["kind"] == Str("HostPathProvisioner")
         && "name" in ref.fields && ref.fields["name"] == Str(owner)
  }

  /** A run, finished or cut off anywhere, leaves every other object as it is. */
  lemma OtherObjectsStay(env: Setting, owner: string, a: Store, b: Store, key: Key)
    requires Ran(env, owner, a, b) && !Known(key)
    requires key in a.objects ==> !FromBefore(key, a.objects[key], owner)
    ensures Lookup(b.objects, key) == Lookup(a.objects, key)
  {
    hide Tidy, Later, Cleanup.JobsAdvance, Tracked, Aim, GoalOf;
    TrackedMeans(key);
    var gone :| ServiceAccounts.Gone(a.objects, owner, gone, false)
                && Phase(env, a.objects - gone, b.objects, Tracked, false);
    assert Lookup(b.objects, key) == Lookup(a.objects - gone, key);
  }

  /** It makes no daemon sets but the two, and of the others it deletes only those that an earlier version named
      after the custom resource, which owns them, or that run under an account it had to create. */
  lemma OtherDaemonSetsStay(env: Setting, owner: string, a: Store, b: Store, k: string)
    requires Ran(env, owner, a, b) && k != "hostpath-provisioner" && k != "hostpath-provisioner-csi"
    ensures k !in a.daemonSets ==> k !in b.daemonSets
    ensures k in a.daemonSets && k in b.daemonSets ==> b.daemonSets[k] == a.daemonSets[k]
    ensures k in a.daemonSets && k !in b.daemonSets ==>
              var d := a.daemonSets[k];
              || d.serviceAccount in ServiceAccounts.Absent(a.objects, env.spec)
              || (owner in d.owners && (Bears(d.labels, "k8s-app", "hostpath-provisioner")
                                        || Bears(d.labels, "k8s-app", owner)))
  {
    hide Later, Cleanup.JobsAdvance, ObjectsMoved, NoGroundLost, Unmounting, PairsWanted, ServiceAccounts.Absent,
      DaemonSets.Tended;
    var daemonSets, view :| Passing(env, owner, a, b, daemonSets, view, false);
    assert DaemonSets.SameAt(a.daemonSets, daemonSets, k)
           || (k in DaemonSets.Duplicates(a.daemonSets, owner) && k !in daemonSets);
  }

  /** It makes deployments for the pools of the spec alone, and leaves one that is not managed, under a name that
      is no pair's, as it is, unless that has ready pods under an account it had to create. */
  lemma OtherDeploymentsStay(env: Setting, owner: string, a: Store, b: Store, k: string)
    requires Ran(env, owner, a, b)
    requires forall p: Templated, n | p in env.spec.storagePools :: DeploymentName(p.name, n) != k
    ensures k !in a.view.deployments ==> k !in b.view.deployments
    ensures k in a.view.deployments && k in b.view.deployments ==> b.view.deployments[k] == a.view.deployments[k]
    ensures k in a.view.deployments && k !in b.view.deployments ==>
              var d := a.view.deployments[k];
              || (d.spec.serviceAccount in ServiceAccounts.Absent(a.objects, env.spec) && d.ready > 0)
              || (d.controlled && Bears(d.labels, "k8s-app", "hostpath-provisioner"))
  {
    hide Later, Cleanup.JobsAdvance, ObjectsMoved, DaemonSets.Tending, Unmounting, ServiceAccounts.Absent,
      DeploymentName, Meets, Sourced, ClaimsFirst;
    var daemonSets, view :| Passing(env, owner, a, b, daemonSets, view, false);
    var pairs := PairsWanted(env.spec, daemonSets, a.pods);
    forall pr | pr in pairs ensures NameOf(pr) != k { assert pr.pool in env.spec.storagePools; }
  }

  /** An object is touched only once daemon sets and pools are as the spec wants them. */
  lemma ObjectsComeLast(env: Setting, owner: string, a: Store, b: Store)
    requires Ran(env, owner, a, b) && ServiceAccounts.HasAccounts(a.objects, env.spec)
    ensures b.objects != a.objects ==>
              DaemonSets.AllCurrent(b.daemonSets, owner, env.spec)
              && Converged(b.view, PairsWanted(env.spec, b.daemonSets, b.pods))
  {
    hide Later, ObjectsMoved, DaemonSets.Tending, NoGroundLost, PairsWanted, Unmounting, DaemonSets.AllCurrent,
      Converged, Cleanup.JobsAdvance;
    var daemonSets, view :| Passing(env, owner, a, b, daemonSets, view, false);
    assert ServiceAccounts.Absent(a.objects, env.spec) == {};
    assert b.daemonSets == daemonSets && b.view.deployments == view.deployments;
    ConvergedAnyway(view, b.view.writes, PairsWanted(env.spec, daemonSets, a.pods));
  }

  /** With its accounts in place, a run, finished or cut off anywhere, deletes no two deployments without their
      unmount: of any two that go, one belongs to no pool by its name, lost its node, has its job, or was
      refused it. */
  lemma TwoGoOneUnmounted(env: Setting, owner: string, a: Store, b: Store, j: string, k: string)
    requires Ran(env, owner, a, b) && ServiceAccounts.HasAccounts(a.objects, env.spec)
    requires j in a.view.deployments && j !in b.view.deployments && k in a.view.deployments
             && k !in b.view.deployments && j != k
    ensures exists l :: l in {j, k} && UnmountSeenTo(env.spec.storagePools, l, a.view.deployments[l].spec.node, b)
  {
    hide Later, ObjectsMoved, DaemonSets.Tending, NoGroundLost, PairsWanted, Obliging;
    var daemonSets, view :| Passing(env, owner, a, b, daemonSets, view, false);
    assert ServiceAccounts.Absent(a.objects, env.spec) == {};
    var items := a.view.deployments;
    if CleanedUp(env.spec.storagePools, j, items[j], b.jobs, b.sky.steady, Obliging(a.sky.events)) {
      assert UnmountSeenTo(env.spec.storagePools, j, items[j].spec.node, b);
    } else {
      assert UnmountSeenTo(env.spec.storagePools, k, items[k].spec.node, b);
    }
  }

  /** The pool that the deployment's name leads to, if any, is unmounted on the node as far as it can be. */
  ghost predicate UnmountSeenTo(pools: seq<StoragePool>, name: string, node: string, b: Store) {
    match PoolByPrefix(pools, name)
    case None => true
    case Some(p) => || node !in b.sky.steady || Cleanup.JobMade(b.jobs, JobName(p.name, node))
                    || JobName(p.name, node) in b.jobs.refused
  }

  // ----------------------------------------------------------------- nothing is left behind



  /** Whatever any spec makes the operator create without an owner, the deletion covers. */
  lemma WantedIsDeleted(spec: Spec, scc: bool, prometheus: bool, key: Key)
    requires GoalOf(spec, scc, prometheus, key).Wanted? && !key.kind.ServiceAccount?
    ensures key in Ownerless && key in Doomed(scc, prometheus)
  {
    match key.kind
    case ClusterRole => assert key in RbacKeys(RbacNames);
    case ClusterRoleBinding => assert key in RbacKeys(RbacNames);
    case Role => if key.name == CSI_ACCOUNT { assert key in RbacKeys(RbacNames); }
    case RoleBinding => if key.name == CSI_ACCOUNT { assert key in RbacKeys(RbacNames); }
    case _ =>
  }

  ghost function Orphans(objects: map<Key, Tree>): set<Key> {
    set key | key in objects && !key.kind.ServiceAccount?
  }

  /** A run for some spec, finished or not; a deletion run, finished or not; or others changing and
      deleting what is there. */
  ghost predicate Step(scc: bool, prometheus: bool, a: map<Key, Tree>, b: map<Key, Tree>, env: Setting, owner: string) {
    || (env.scc == scc && env.prometheus == prometheus && ObjectsMoved(env, owner, a, b, false))
    || Deleting(a, b, Doomed(scc, prometheus), false)
    || Orphans(b) <= Orphans(a)
  }

  ghost predicate StepsFrom(scc: bool, prometheus: bool, trace: seq<map<Key, Tree>>, envs: seq<Setting>,
                            owner: string) {
    |envs| == |trace| && forall i | 0 <= i < |trace| - 1 ::
      Step(scc, prometheus, trace[i], trace[i + 1], envs[i], owner)
  }

  lemma StepCreatesKnown(scc: bool, prometheus: bool, a: map<Key, Tree>, b: map<Key, Tree>, env: Setting, owner: string)
    requires Step(scc, prometheus, a, b, env, owner)
    ensures Orphans(b) <= Orphans(a) + Doomed(scc, prometheus)
  {
    hide Doomed, GoalOf, Aim, Tracked;
    if env.scc == scc && env.prometheus == prometheus && ObjectsMoved(env, owner, a, b, false) {
      var gone :| ServiceAccounts.Gone(a, owner, gone, false) && Phase(env, a - gone, b, Tracked, false);
      forall key | key in Orphans(b) && key !in Orphans(a) ensures key in Doomed(scc, prometheus) {
        assert Lookup(b, key) != Lookup(a - gone, key);
        assert Attained(env, a - gone, b, key);
        WantedIsDeleted(env.spec, scc, prometheus, key);
      }
    }
  }

  lemma {:induction false} OnlyKnownCreated(scc: bool, prometheus: bool, trace: seq<map<Key, Tree>>, envs: seq<Setting>,
                                            owner: string, i: nat)
    requires StepsFrom(scc, prometheus, trace, envs, owner) && i < |trace|
    ensures Orphans(trace[i]) <= Orphans(trace[0]) + Doomed(scc, prometheus)
  {
    hide Doomed, Step, Orphans;
    if i > 0 {
      OnlyKnownCreated(scc, prometheus, trace, envs, owner, i - 1);
      StepCreatesKnown(scc, prometheus, trace[i - 1], trace[i - 1 + 1], envs[i - 1], owner);
    }
  }

  /** Over any sequence of legacy and pool specs, failed runs and failed deletions: once the
      finalizer goes, no ownerless object the operator created is left. */
  lemma NothingLeftBehind(scc: bool, prometheus: bool, trace: seq<map<Key, Tree>>, envs: seq<Setting>, owner: string)
    requires |trace| > 0 && StepsFrom(scc, prometheus, trace, envs, owner)
    requires trace[|trace| - 1].Keys !! Doomed(scc, prometheus)
    ensures Orphans(trace[|trace| - 1]) <= Orphans(trace[0]) - Doomed(scc, prometheus)
    ensures Orphans(trace[0]) == {} ==> Orphans(trace[|trace| - 1]) == {}
  {
    hide Doomed, StepsFrom;
    OnlyKnownCreated(scc, prometheus, trace, envs, owner, |trace| - 1);
  }
}
