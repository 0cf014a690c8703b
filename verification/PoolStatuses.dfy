// The status of every storage pool as the custom resource reports it (storagepool.go).

module PoolStatuses {
  import opened CustomResource
  import opened Names
  import opened Cluster
  import opened Cleanup
  import opened StoragePools
  import Convergence
  import Versions
  import VersionProofs


  const LEGACY := "legacy"

  // -------------------------------------------------------------------- what is counted

  predicate Labelled(labels: map<string, string>, pool: string) {
    && "k8s-app" in labels && labels["k8s-app"] == APP
    && POOL_LABEL in labels && labels[POOL_LABEL] == PoolLabel(pool)
  }

  /** The custom resource's deployments with the label of a pool. */
  function DeploymentsOf(m: map<string, Deployment>, pool: string): set<string> {
    set k | k in m && Labelled(m[k].labels, pool) && m[k].controlled
  }

  function ReadyOf(m: map<string, Deployment>, pool: string): set<string> {
    set k | k in DeploymentsOf(m, pool) && m[k].ready == 1
  }

  function ClaimsOf(claims: map<string, Claim>, pool: string): set<string> {
    set k | k in claims && Labelled(claims[k].labels, pool)
  }

  predicate Mentions(listed: seq<ClaimStatus>, claim: string) {
    exists i :: 0 <= i < |listed| && listed[i].name == claim
  }

  /** Each labelled claim once, with its phase. */
  ghost predicate ListsClaims(listed: seq<ClaimStatus>, claims: map<string, Claim>, pool: string) {
    && (forall i | 0 <= i < |listed| ::
          listed[i].name in ClaimsOf(claims, pool) && listed[i].phase == claims[listed[i].name].phase)
    && (forall i, j | 0 <= i < j < |listed| :: listed[i].name != listed[j].name)
    && (forall k | k in ClaimsOf(claims, pool) :: Mentions(listed, k))
  }

  ghost predicate IsStatusOf(s: PoolStatus, p: StoragePool, m: map<string, Deployment>, claims: map<string, Claim>) {
    && s.name == p.name
    && (p.template.None? ==> s.desiredReady == 0 && s.currentReady == 0 && s.claims == [])
    && (p.template.Some? ==>
          && s.desiredReady == |DeploymentsOf(m, p.name)| && s.currentReady == |ReadyOf(m, p.name)|
          && ListsClaims(s.claims, claims, p.name))
  }

  ghost predicate AllBound(claims: map<string, Claim>, pool: string) {
    forall k | k in ClaimsOf(claims, pool) :: claims[k].phase == Bound
  }

  // ---------------------------------------------------------------------------- reading

  method GetClaimStatuses(r: Client, pool: string) returns (err: Option<Error>, listed: seq<ClaimStatus>)
    modifies r`sky
    ensures Quiet(old(r.sky), r.sky, r.jobs)
    ensures err.None? ==> ListsClaims(listed, r.claims, pool)
    ensures old(r.sky.events) == [] ==> err.None?
  {
    listed := [];
    var f := r.Tick();
    if ReadFails(f) { return Some(Request), []; }
    var all := ClaimsOf(r.claims, pool);
    var todo := all;
    while todo != {}
      invariant todo <= all
      invariant forall i | 0 <= i < |listed| ::
                  listed[i].name in all - todo && listed[i].phase == r.claims[listed[i].name].phase
      invariant forall i, j | 0 <= i < j < |listed| :: listed[i].name != listed[j].name
      invariant forall k | k in all && k !in todo :: Mentions(listed, k)
    {
      var k :| k in todo;
      ghost var before := listed;
      listed := listed + [ClaimStatus(k, r.claims[k].phase)];
      todo := todo - {k};
      forall j | j in all && j !in todo ensures Mentions(listed, j) {
        if j == k {
          assert listed[|listed| - 1].name == j;
        } else {
          var i :| 0 <= i < |before| && before[i].name == j;
          assert listed[i].name == j;
        }
      }
    }
    err := None;
  }

  ghost predicate FirstUnbound(listed: seq<ClaimStatus>, i: nat) {
    i < |listed| && listed[i].phase != Bound && forall j | 0 <= j < i :: listed[j].phase == Bound
  }

  /** The first claim that is not bound decides the error. */
  method CheckBound(listed: seq<ClaimStatus>) returns (err: Option<Error>)
    ensures err.None? <==> forall i | 0 <= i < |listed| :: listed[i].phase == Bound
    ensures err.Some? ==> exists i :: 0 <= i < |listed| && err == Some(NotBound(listed[i].name))
                                      && FirstUnbound(listed, i)
  {
    for i := 0 to |listed|
      invariant forall j | 0 <= j < i :: listed[j].phase == Bound
    {
      if listed[i].phase != Bound {
        assert FirstUnbound(listed, i);
        return Some(NotBound(listed[i].name));
      }
    }
    err := None;
  }

  /** The counting loop. */
  method CountReady(m: map<string, Deployment>, pool: string) returns (ready: nat)
    ensures ready == |ReadyOf(m, pool)|
  {
    hide Labelled;
    ready := 0;
    var todo := DeploymentsOf(m, pool);
    ghost var counted := {};
    while todo != {}
      invariant todo <= DeploymentsOf(m, pool) && ready == |counted|
      invariant counted == ReadyOf(m, pool) - todo
    {
      var k :| k in todo;
      assert ReadyOf(m, pool) - (todo - {k}) == if m[k].ready == 1 then counted + {k} else counted;
      if m[k].ready == 1 {
        ready := ready + 1;
        counted := counted + {k};
      }
      todo := todo - {k};
    }
  }

  /** The status of a pool with a claim template: counting what is there. */
  method StatusOfPool(r: Client, p: Templated) returns (err: Option<Error>, s: PoolStatus)
    modifies r`sky
    ensures Quiet(old(r.sky), r.sky, r.jobs)
    ensures err.None? ==> IsStatusOf(s, p, r.deployments, r.claims) && AllBound(r.claims, p.name)
    ensures err.None? ==> Counts(s, p.name, r.deployments, r.claims)

    ensures old(r.sky.events) == [] ==> (err.None? <==> AllBound(r.claims, p.name))
  {
    s := PoolStatus(p.name, 0, 0, []);
    var f := r.Tick();
    if ReadFails(f) { return Some(Request), s; }
    var deployments := DeploymentsOf(r.deployments, p.name);
    var ready := CountReady(r.deployments, p.name);
    var listed;
    err, listed := GetClaimStatuses(r, p.name);
    if err.Some? { return; }
    err := CheckBound(listed);
    assert err.None? <==> AllBound(r.claims, p.name);
    s := PoolStatus(p.name, |deployments|, ready, listed);
    if err.None? { StatusCounts(s, p, r.deployments, r.claims); }
  }

  predicate OfPool(labels: map<string, string>, pool: string) {
    && Bears(labels, "k8s-app", "hostpath-provisioner")
    && Bears(labels, "kubevirt.io.hostpath-provisioner/storagePool", PoolLabel(pool))
  }

  /** What a status says when every claim is bound: how many deployments the custom resource controls for the
      pool, how many of those have exactly one ready pod, and which claims there are. */
  ghost predicate Counts(s: PoolStatus, pool: string, m: map<string, Deployment>, claims: map<string, Claim>) {
    && s.name == pool
    && s.desiredReady == |set k | k in m && m[k].controlled && OfPool(m[k].labels, pool)|
    && s.currentReady == |set k | k in m && m[k].controlled && OfPool(m[k].labels, pool) && m[k].ready == 1|
    && (forall k | k in claims && OfPool(claims[k].labels, pool) :: claims[k].phase == Bound)
    && (forall k :: ClaimStatus(k, Bound) in s.claims <==> k in claims && OfPool(claims[k].labels, pool))
    && (forall c | c in s.claims :: c.phase == Bound)
  }

  lemma StatusCounts(s: PoolStatus, p: Templated, m: map<string, Deployment>, claims: map<string, Claim>)
    requires IsStatusOf(s, p, m, claims) && AllBound(claims, p.name)
    ensures Counts(s, p.name, m, claims)
  {
    hide PoolLabel;
    assert (set k | k in m && m[k].controlled && OfPool(m[k].labels, p.name)) == DeploymentsOf(m, p.name);
    assert (set k | k in m && m[k].controlled && OfPool(m[k].labels, p.name) && m[k].ready == 1) == ReadyOf(m, p.name);
    forall k | k in claims && OfPool(claims[k].labels, p.name)
      ensures claims[k].phase == Bound && ClaimStatus(k, Bound) in s.claims
    {
      assert k in ClaimsOf(claims, p.name);
      var i :| 0 <= i < |s.claims| && s.claims[i].name == k;
      assert s.claims[i] == ClaimStatus(k, Bound);
    }
    forall c | c in s.claims ensures c.phase == Bound && c.name in claims && OfPool(claims[c.name].labels, p.name) {
      var i :| 0 <= i < |s.claims| && s.claims[i] == c;
      assert c.name in ClaimsOf(claims, p.name);
    }
  }


  // ---------------------------------------------------------------------------- sorting

  ghost predicate Sorted(s: seq<PoolStatus>) {
    forall i, j | 0 <= i < j < |s| :: Versions.CompareString(s[i].name, s[j].name) <= 0
  }

  /** No name is before an earlier one, byte by byte. */
  ghost predicate InNameOrder(s: seq<PoolStatus>) {
    forall i, j | 0 <= i < j < |s| :: !VersionProofs.TextBefore(s[j].name, s[i].name)
  }

  lemma SortedMeans(s: seq<PoolStatus>)
    ensures Sorted(s) <==> InNameOrder(s)
  {
    hide Versions.CompareString, VersionProofs.TextBefore;
    forall i, j | 0 <= i < j < |s|
      ensures Versions.CompareString(s[i].name, s[j].name) <= 0 <==>
              !VersionProofs.TextBefore(s[j].name, s[i].name)
    {
      VersionProofs.CompareStringMeans(s[j].name, s[i].name);
      Versions.CompareStringOrder(s[i].name, s[j].name, "");
    }
  }

  method Insert(s: seq<PoolStatus>, x: PoolStatus) returns (r: seq<PoolStatus>)
    requires Sorted(s)
    ensures Sorted(r) && multiset(r) == multiset(s) + multiset{x}
  {
    hide Versions.CompareString, Sorted;
    var i := |s|;
    while i > 0 && Versions.CompareString(x.name, s[i - 1].name) == -1
      invariant 0 <= i <= |s|
      invariant forall j | i <= j < |s| :: Versions.CompareString(x.name, s[j].name) == -1
    {
      i := i - 1;
    }
    Splice(s, x, i);
    SpliceAdds(s, x, i);
    r := s[..i] + [x] + s[i..];
  }

  lemma SpliceAdds(s: seq<PoolStatus>, x: PoolStatus, i: nat)
    requires i <= |s|
    ensures multiset(s[..i] + [x] + s[i..]) == multiset(s) + multiset{x}
  {
    assert s == s[..i] + s[i..];
  }

  lemma Splice(s: seq<PoolStatus>, x: PoolStatus, i: nat)
    requires Sorted(s) && i <= |s|
    requires i > 0 ==> Versions.CompareString(x.name, s[i - 1].name) != -1
    requires forall j | i <= j < |s| :: Versions.CompareString(x.name, s[j].name) == -1
    ensures Sorted(s[..i] + [x] + s[i..])
  {
    hide Versions.CompareString;
    forall j | 0 <= j < i ensures Versions.CompareString(s[j].name, x.name) <= 0 {
      Versions.CompareStringOrder(s[j].name, s[i - 1].name, x.name);
      Versions.CompareStringOrder(s[i - 1].name, x.name, "");
      Versions.CompareStringOrder(s[j].name, s[j].name, "");
    }
    var r := s[..i] + [x] + s[i..];
    assert forall j | 0 <= j < |r| :: r[j] == if j < i then s[j] else if j == i then x else s[j - 1];
  }

  method Sort(s: seq<PoolStatus>) returns (r: seq<PoolStatus>)
    ensures Sorted(r) && InNameOrder(r) && multiset(r) == multiset(s)
  {
    r := [];
    for i := 0 to |s|
      invariant Sorted(r) && multiset(r) == multiset(s[..i])
    {
      assert s[..i + 1] == s[..i] + [s[i]];
      r := Insert(r, s[i]);
    }
    assert s[..|s|] == s;
    SortedMeans(r);
  }

  // --------------------------------------------------------------------------- reporting

  /** The status is one of a pool's. */
  ghost predicate HasPool(s: PoolStatus, pools: seq<StoragePool>, m: map<string, Deployment>,
                          claims: map<string, Claim>) {
    exists p :: p in pools && IsStatusOf(s, p, m, claims)
  }

  ghost predicate HasStatus(p: StoragePool, statuses: seq<PoolStatus>, m: map<string, Deployment>,
                            claims: map<string, Claim>) {
    exists s :: s in statuses && IsStatusOf(s, p, m, claims)
  }

  /** One status for every pool, in name order. */
  ghost predicate Reports(statuses: seq<PoolStatus>, pools: seq<StoragePool>, m: map<string, Deployment>,
                          claims: map<string, Claim>) {
    && |statuses| == |pools| && Sorted(statuses)
    && (forall s | s in statuses :: HasPool(s, pools, m, claims))
    && (forall p | p in pools :: HasStatus(p, statuses, m, claims))
  }

  ghost predicate ClaimsBound(spec: Spec, claims: map<string, Claim>) {
    IsLegacy(spec) || forall p | p in spec.storagePools && p.template.Some? :: AllBound(claims, p.name)
  }

  lemma PermutedReports(unsorted: seq<PoolStatus>, sorted: seq<PoolStatus>, pools: seq<StoragePool>,
                        m: map<string, Deployment>, claims: map<string, Claim>)
    requires |unsorted| == |pools| && forall i | 0 <= i < |pools| :: IsStatusOf(unsorted[i], pools[i], m, claims)
    requires Sorted(sorted) && multiset(sorted) == multiset(unsorted)
    ensures Reports(sorted, pools, m, claims)
  {
    hide IsStatusOf, Sorted;
    SameLength(unsorted, sorted);
    forall s | s in sorted ensures HasPool(s, pools, m, claims) {
      assert s in multiset(unsorted);
      var i :| 0 <= i < |unsorted| && unsorted[i] == s;
      assert pools[i] in pools && IsStatusOf(s, pools[i], m, claims);
    }
    forall p | p in pools ensures HasStatus(p, sorted, m, claims) {
      var i :| 0 <= i < |pools| && pools[i] == p;
      assert unsorted[i] in multiset(sorted);
      assert unsorted[i] in sorted && IsStatusOf(unsorted[i], p, m, claims);
    }
  }

  lemma SameLength<T>(a: seq<T>, b: seq<T>)
    requires multiset(a) == multiset(b)
    ensures |a| == |b|
  {
    assert |multiset(a)| == |a| && |multiset(b)| == |b|;
  }

  /** Replaces the pool statuses, or leaves them untouched and says which claim is not bound or
      that a request failed. */
  method ReconcileStoragePoolStatus(r: Client, cr: Instance) returns (err: Option<Error>)
    modifies r`sky, cr
    ensures Quiet(old(r.sky), r.sky, r.jobs)
    ensures cr.resource == old(cr.resource).(poolStatuses := cr.resource.poolStatuses)
    ensures err.Some? ==> cr.resource == old(cr.resource)
    ensures err.None? ==> ClaimsBound(cr.resource.spec, r.claims) && InNameOrder(cr.resource.poolStatuses)

    ensures err.None? && IsLegacy(cr.resource.spec) ==> cr.resource.poolStatuses == [PoolStatus(LEGACY, 0, 0, [])]
    ensures err.None? && !IsLegacy(cr.resource.spec) ==>
              Reports(cr.resource.poolStatuses, cr.resource.spec.storagePools, r.deployments, r.claims)
    ensures old(r.sky.events) == [] ==> (err.None? <==> ClaimsBound(cr.resource.spec, r.claims))
  {
    hide IsStatusOf, AllBound, Reports, InNameOrder;
    var spec, unsorted := cr.resource.spec, [];
    if IsLegacy(spec) {
      unsorted := [PoolStatus(LEGACY, 0, 0, [])];
    } else {
      for i := 0 to |spec.storagePools|
        invariant Quiet(old(r.sky), r.sky, r.jobs)
        invariant cr.resource == old(cr.resource)
        invariant |unsorted| == i && forall j | 0 <= j < i ::
                    IsStatusOf(unsorted[j], spec.storagePools[j], r.deployments, r.claims)
        invariant forall j | 0 <= j < i && spec.storagePools[j].template.Some? ::
            AllBound(r.claims, spec.storagePools[j].name)
      {
        var pool := spec.storagePools[i];
        if pool.template.Some? {
          var status;
          err, status := StatusOfPool(r, pool);
          if err.Some? { return; }
          unsorted := unsorted + [status];
        } else {
          EmptyStatus(pool, r.deployments, r.claims);
          unsorted := unsorted + [PoolStatus(pool.name, 0, 0, [])];
        }
      }
    }
    var statuses := Sort(unsorted);
    if IsLegacy(spec) {
      SameLength(unsorted, statuses);
      assert statuses[0] in multiset(unsorted);
    } else {
      PermutedReports(unsorted, statuses, spec.storagePools, r.deployments, r.claims);
    }
    cr.resource := cr.resource.(poolStatuses := statuses);
    err := None;
  }

  lemma EmptyStatus(p: StoragePool, m: map<string, Deployment>, claims: map<string, Claim>)
    requires p.template.None?
    ensures IsStatusOf(PoolStatus(p.name, 0, 0, []), p, m, claims)
  {
  }

  // ------------------------------------------------------------------ what a report means

  lemma SubsetSize<T>(a: set<T>, b: set<T>)
    requires a <= b
    ensures |a| <= |b|
  {
    assert b == a + (b - a);
  }

  /** Every deployment is counted for at most one admitted pool, and no pool reports more ready
      deployments than it has. */
  lemma CountedOnce(m: map<string, Deployment>, claims: map<string, Claim>, p: StoragePool, q: StoragePool,
                    s: PoolStatus)
    requires 0 < |p.name| <= ADMITTED_LENGTH && 0 < |q.name| <= ADMITTED_LENGTH && p.name != q.name
    requires IsStatusOf(s, p, m, claims)
    ensures DeploymentsOf(m, p.name) !! DeploymentsOf(m, q.name) && ClaimsOf(claims, p.name) !! ClaimsOf(claims, q.name)
    ensures DeploymentsOf(m, p.name) <= ManagedOf(m).Keys
    ensures s.currentReady <= s.desiredReady
  {
    PoolNamesInjective(p.name, q.name);
    SubsetSize(ReadyOf(m, p.name), DeploymentsOf(m, p.name));
  }

  function TotalDesired(statuses: seq<PoolStatus>): nat {
    if statuses == [] then 0 else TotalDesired(statuses[1..]) + statuses[0].desiredReady
  }

  ghost function CountedFor(m: map<string, Deployment>, pools: seq<StoragePool>): set<string> {
    set k, p | p in pools && p.template.Some? && k in DeploymentsOf(m, p.name) :: k
  }

  ghost function CountedForOne(m: map<string, Deployment>, p: StoragePool): set<string> {
    if p.template.Some? then DeploymentsOf(m, p.name) else {}
  }

  lemma CountedAreManaged(m: map<string, Deployment>, pools: seq<StoragePool>)
    ensures CountedFor(m, pools) <= ManagedOf(m).Keys && |CountedFor(m, pools)| <= |ManagedOf(m)|
  {
    hide DeploymentsOf, Managed;
    forall k | k in CountedFor(m, pools) ensures k in ManagedOf(m) {
      var p :| p in pools && p.template.Some? && k in DeploymentsOf(m, p.name);
      CountedIsManaged(m, p.name, k);
    }
    SubsetSize(CountedFor(m, pools), ManagedOf(m).Keys);
    assert |ManagedOf(m).Keys| == |ManagedOf(m)|;
  }

  lemma DisjointLabels(m: map<string, Deployment>, p: string, q: string)
    requires 0 < |p| <= ADMITTED_LENGTH && 0 < |q| <= ADMITTED_LENGTH && p != q
    ensures DeploymentsOf(m, p) !! DeploymentsOf(m, q)
  {
    PoolNamesInjective(p, q);
  }

  lemma CountedIsManaged(m: map<string, Deployment>, p: string, k: string)
    requires k in DeploymentsOf(m, p)
    ensures k in ManagedOf(m)
  {
  }

  lemma CountOf(s: PoolStatus, p: StoragePool, m: map<string, Deployment>, claims: map<string, Claim>)
    requires IsStatusOf(s, p, m, claims)
    ensures s.desiredReady == |CountedForOne(m, p)|
  {
  }

  /** After a completed run with admitted names that cannot be confused, a pool counts exactly the
      deployments of its nodes: one for each. */
  lemma ConvergedCounts(v: View, spec: Spec, nodes: set<string>, p: Templated)
    requires Converged(v, WantedPairs(spec, nodes)) && Convergence.Unclaimed(v.deployments, WantedPairs(spec, nodes))
             && p in spec.storagePools
    requires NoConfusion(set q | q in spec.storagePools :: q.name)
    requires forall q | q in spec.storagePools :: 0 < |q.name| <= ADMITTED_LENGTH && forall n | n in nodes ::
                                                    Fits(q.name, n)
    ensures DeploymentsOf(v.deployments, p.name) == set n | n in nodes :: DeploymentName(p.name, n)
    ensures |DeploymentsOf(v.deployments, p.name)| == |nodes|
  {
    hide Labelled, Desired, Converged, Convergence.Unclaimed;
    var names, pairs := set q | q in spec.storagePools :: q.name, WantedPairs(spec, nodes);
    Convergence.ExactConvergence(v, pairs);
    assert forall n | n in nodes :: Pair(p, n) in pairs && DeploymentName(p.name, n) == NameOf(Pair(p, n));
    forall k
      ensures k in DeploymentsOf(v.deployments, p.name) <==> k in set n | n in nodes :: DeploymentName(p.name, n)
    {
      if k in NamesOf(pairs) {
        CountedIffNamed(v, spec, nodes, p, k);
      } else {
        if k in DeploymentsOf(v.deployments, p.name) { CountedIsManaged(v.deployments, p.name, k); }
      }
    }
    assert p.name in names;
    SameCount(names, p.name, nodes);
  }

  lemma CountedIffNamed(v: View, spec: Spec, nodes: set<string>, p: Templated, k: string)
    requires Converged(v, WantedPairs(spec, nodes)) && Convergence.Unclaimed(v.deployments, WantedPairs(spec, nodes))
             && p in spec.storagePools
    requires NoConfusion(set q | q in spec.storagePools :: q.name)
    requires forall q | q in spec.storagePools :: 0 < |q.name| <= ADMITTED_LENGTH && forall n | n in nodes ::
                                                    Fits(q.name, n)
    requires k in NamesOf(WantedPairs(spec, nodes))
    ensures k in DeploymentsOf(v.deployments, p.name) <==> exists n :: n in nodes && DeploymentName(p.name, n) == k
  {
    hide Converged, Convergence.Unclaimed, Desired;
    var names, pairs := set q | q in spec.storagePools :: q.name, WantedPairs(spec, nodes);
    LabelOfConverged(v, pairs, k);
    var pr :| pr in pairs && NameOf(pr) == k
              && Labelled(v.deployments[k].labels, pr.pool.name) && v.deployments[k].controlled;
    PoolNamesInjective(p.name, pr.pool.name);
    assert p.name in names && pr.pool.name in names;
    if n :| n in nodes && DeploymentName(p.name, n) == k {
      DeploymentNamesDistinct(names, p.name, n, pr.pool.name, pr.node);
    }
    if p.name == pr.pool.name { assert pr.node in nodes && DeploymentName(p.name, pr.node) == k; }
  }

  lemma LabelOfConverged(v: View, pairs: set<Pair>, k: string)
    requires Converged(v, pairs) && Convergence.Unclaimed(v.deployments, pairs) && k in NamesOf(pairs)
    ensures k in v.deployments && exists pr ::
              pr in pairs && NameOf(pr) == k
              && Labelled(v.deployments[k].labels, pr.pool.name) && v.deployments[k].controlled
  {
    var at :| at in pairs && NameOf(at) == k;
    assert Good(v.deployments[k], k, pairs);
    var pr :| pr in pairs && NameOf(pr) == k && Meets(v.deployments[k], Desired(pr));
    assert ("k8s-app", APP) in Desired(pr).labels.Items
           && (POOL_LABEL, PoolLabel(pr.pool.name)) in Desired(pr).labels.Items;
    assert Labelled(v.deployments[k].labels, pr.pool.name);
  }

  lemma {:induction false} SameCount(names: set<string>, p: string, nodes: set<string>)
    requires NoConfusion(names) && p in names && forall n | n in nodes :: Fits(p, n)
    ensures |set n | n in nodes :: DeploymentName(p, n)| == |nodes|
  {
    var all := set n | n in nodes :: DeploymentName(p, n);
    if nodes == {} {
      assert all == {};
    } else {
      var x :| x in nodes;
      var rest := nodes - {x};
      SameCount(names, p, rest);
      var others := set n | n in rest :: DeploymentName(p, n);
      if DeploymentName(p, x) in others {
        var n :| n in rest && DeploymentName(p, n) == DeploymentName(p, x);
        DeploymentNamesDistinct(names, p, x, p, n);
        assert false;
      }
      assert all == others + {DeploymentName(p, x)};
    }
  }
}
