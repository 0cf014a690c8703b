// What runs of the storage pool reconciliation guarantee together: exact convergence, progress
// that no interruption undoes, rest once converged, and claims that come first and stay.

module Convergence {
  import opened CustomResource
  import opened Names
  import opened Cluster
  import opened Cleanup
  import opened StoragePools
  import Strings

  /** Nobody else holds a name that is wanted. */
  ghost predicate Unclaimed(m: map<string, Deployment>, pairs: set<Pair>) {
    forall k | k in m && k in NamesOf(pairs) :: m[k].controlled
  }

  /** The managed deployments missing or unwanted. */
  ghost function Off(m: map<string, Deployment>, pairs: set<Pair>): set<string> {
    (ManagedOf(m).Keys - NamesOf(pairs)) + (NamesOf(pairs) - ManagedOf(m).Keys)
  }

  /** Pinned to the pair's node, with the pool's path and mode, under the operator's account, with the pool's
    label, and with a claim that exists: one for all nodes if the template says ReadWriteMany. */
  predicate Serves(v: View, d: Deployment, pr: Pair) {
    var pool, template, s := pr.pool, pr.pool.template.value, d.spec;
    && s.node == pr.node && s.path == pool.path && s.block == template.block && s.claim in v.claims
    && s.claim == (if ReadWriteMany in template.accessModes then SharedClaimName(pool.name)
                   else ClaimName(pool.name, pr.node))
    && s.serviceAccount == "hostpath-provisioner-admin-csi"
    && Bears(d.labels, "kubevirt.io.hostpath-provisioner/storagePool", PoolLabel(pool.name))
    && Bears(d.labels, "k8s-app", "hostpath-provisioner")
  }


  lemma GoodIsManaged(d: Deployment, k: string, pairs: set<Pair>)
    requires Good(d, k, pairs) && d.controlled
    ensures Managed(d) && k in NamesOf(pairs)
  {
    var pr :| pr in pairs && NameOf(pr) == k && Meets(d, Desired(pr));
    assert ("k8s-app", APP) in Desired(pr).labels.Items;
  }

  /** After a completed run the managed deployments are those of the wanted pairs and no others,
      each on its node with its pool's claim, path and mode. */
  lemma ExactConvergence(v: View, pairs: set<Pair>)
    requires Converged(v, pairs) && Unclaimed(v.deployments, pairs)
    ensures Off(v.deployments, pairs) == {} && ManagedOf(v.deployments).Keys == NamesOf(pairs)
    ensures forall k | k in ManagedOf(v.deployments) ::
              exists pr :: pr in pairs && NameOf(pr) == k && Serves(v, v.deployments[k], pr)
  {
    hide NameOf, Desired, Managed, Serves;
    forall k | k in NamesOf(pairs) ensures k in ManagedOf(v.deployments) {
      var pr :| pr in pairs && NameOf(pr) == k;
      GoodIsManaged(v.deployments[k], k, pairs);
    }
    forall k | k in ManagedOf(v.deployments) ensures k in NamesOf(pairs) { assert Owns(v.deployments, k); }
    forall k | k in ManagedOf(v.deployments)
      ensures exists pr :: pr in pairs && NameOf(pr) == k && Serves(v, v.deployments[k], pr)
    {
      Served(v, pairs, k);
    }
  }

  lemma Served(v: View, pairs: set<Pair>, k: string)
    requires Present(v, pairs, pairs) && k in NamesOf(pairs)
    ensures k in v.deployments && exists pr :: pr in pairs && NameOf(pr) == k && Serves(v, v.deployments[k], pr)
  {
    hide NameOf, Desired, ClaimOf;
    var at :| at in pairs && NameOf(at) == k;
    assert Good(v.deployments[k], k, pairs);
    var pr :| pr in pairs && NameOf(pr) == k && Meets(v.deployments[k], Desired(pr));
    MeetingServes(v, v.deployments[k], pr);
  }

  /** A run, cut off or not, never moves away from what is wanted. */
  lemma OffNeverGrows(a: View, b: View, pairs: set<Pair>)
    requires NoGroundLost(a, b, pairs)
    ensures Off(b.deployments, pairs) <= Off(a.deployments, pairs)
    ensures Unclaimed(a.deployments, pairs) ==> Unclaimed(b.deployments, pairs)
  {
    forall k | k in Off(b.deployments, pairs) ensures k in Off(a.deployments, pairs) {
      if k in NamesOf(pairs) {
        if k in ManagedOf(a.deployments) && Good(b.deployments[k], k, pairs) {
          GoodIsManaged(b.deployments[k], k, pairs);
        }
      } else {
        assert !Good(b.deployments[k], k, pairs) by {
          if Good(b.deployments[k], k, pairs) { GoodIsManaged(b.deployments[k], k, pairs); }
        }
      }
    }
  }

  /** A run, cut off or not, never deletes a deployment that the custom resource does not control, or
      without the app label, and changes it only under a name that is wanted. */
  lemma ForeignIsSpared(a: View, b: View, pairs: set<Pair>, k: string)
    requires NoGroundLost(a, b, pairs) && k in a.deployments && Foreign(a.deployments[k])
    ensures k in b.deployments && b.deployments[k].controlled == a.deployments[k].controlled
    ensures k !in NamesOf(pairs) ==> b.deployments[k] == a.deployments[k]
  {
  }

  /** What a run makes, cut off or not: claims for wanted pairs, not bound yet, with the template and the label
    of their pool; and storage classes for wanted pools, under the name the pool asks for or the default. */
  lemma OnlyWantedIsMade(a: View, b: View, pairs: set<Pair>, k: string)
    requires NoGroundLost(a, b, pairs)
    ensures k in b.claims && k !in a.claims ==>
              exists pr :: pr in pairs && ClaimFor(b.claims[k], k, pr.pool, pr.node)
    ensures k in b.classes && k !in a.classes ==>
              exists pr :: pr in pairs && b.classes[k].pool == pr.pool.name
                           && ReadWriteMany in pr.pool.template.value.accessModes

                           && k == if pr.pool.overlayClassName == "" then "hpp-overlay" else pr.pool.overlayClassName
  {
    hide SharedClaimName, ClaimName, PoolLabel, Good, ClaimsFirst, NamesOf, Kept;
    if k in b.claims && k !in a.claims {
      var pr :| pr in pairs && k == ClaimOf(pr) && b.claims[k] == DesiredClaim(pr.pool);
      assert ClaimFor(b.claims[k], k, pr.pool, pr.node);
    }
  }

  predicate ClaimFor(claim: Claim, name: string, pool: Templated, node: string) {
    && claim.template == pool.template.value && claim.phase == Pending
    && Bears(claim.labels, "kubevirt.io.hostpath-provisioner/storagePool", PoolLabel(pool.name))
    && Bears(claim.labels, "k8s-app", "hostpath-provisioner")
    && name == if ReadWriteMany in pool.template.value.accessModes then SharedClaimName(pool.name)
               else ClaimName(pool.name, node)
  }

  /** What a found deployment keeps through an update: its owner, its ready pods, the deprecated account field,
      and the labels that are not the operator's; what is wanted replaces the rest. */
  lemma RefreshKeeps(found: Deployment, pr: Pair, k: string)
    ensures var d, own := Refreshed(found, Desired(pr)), PoolLabels(pr.pool.name);
            && d.controlled == found.controlled && d.ready == found.ready
            && d.spec.deprecated == found.spec.deprecated
            && (if k in own then Bears(d.labels, k, own[k])
                else (k in d.labels <==> k in found.labels) && (k in found.labels ==> d.labels[k] == found.labels[k]))
  {
    hide PoolLabels, ClaimOf;
  }

  /** After a completed run every pool with a claim template has, on each node in use, a deployment that serves
      it under the name of the pair, unless another pair takes the name; a shared pool has its storage class;
      and nothing else is managed. */
  lemma SpecIsMet(v: View, spec: Spec, nodes: set<string>)
    requires Converged(v, WantedPairs(spec, nodes)) && Unclaimed(v.deployments, WantedPairs(spec, nodes))
    ensures forall p: Templated, n | p in spec.storagePools && n in nodes ::
              && DeploymentName(p.name, n) in v.deployments
              && (Agree(WantedPairs(spec, nodes)) ==> Serves(v, v.deployments[DeploymentName(p.name, n)], Pair(p, n)))
              && (IsShared(p.template.value) ==> ClassName(p) in v.classes)
    ensures forall k | k in v.deployments && v.deployments[k].controlled
                       && Bears(v.deployments[k].labels, "k8s-app", "hostpath-provisioner") ::
              exists p: Templated, n | p in spec.storagePools && n in nodes :: k == DeploymentName(p.name, n)
  {
    hide Desired, DeploymentName, Serves, ClaimOf, ClassName;
    var pairs := WantedPairs(spec, nodes);
    ExactConvergence(v, pairs);
    forall p: Templated, n | p in spec.storagePools && n in nodes
      ensures DeploymentName(p.name, n) in v.deployments
      ensures Agree(pairs) ==> Serves(v, v.deployments[DeploymentName(p.name, n)], Pair(p, n))
      ensures IsShared(p.template.value) ==> ClassName(p) in v.classes
    {
      assert Pair(p, n) in pairs;
      if Agree(pairs) { AgreedServes(v, pairs, Pair(p, n)); }
    }
    forall k | k in v.deployments && v.deployments[k].controlled
               && Bears(v.deployments[k].labels, "k8s-app", "hostpath-provisioner")
      ensures exists p: Templated, n | p in spec.storagePools && n in nodes :: k == DeploymentName(p.name, n)
    {
      assert k in ManagedOf(v.deployments);
      var pr :| pr in pairs && NameOf(pr) == k;
      assert pr.pool in spec.storagePools && pr.node in nodes && k == DeploymentName(pr.pool.name, pr.node);
    }
  }

  lemma AgreedServes(v: View, pairs: set<Pair>, pr: Pair)
    requires Converged(v, pairs) && Agree(pairs) && pr in pairs
    ensures NameOf(pr) in v.deployments && Serves(v, v.deployments[NameOf(pr)], pr)
  {
    hide NameOf, Desired, ClaimOf;
    var d := v.deployments[NameOf(pr)];
    var q :| q in pairs && NameOf(q) == NameOf(pr) && Meets(d, Desired(q));
    assert Desired(q) == Desired(pr);
    MeetingServes(v, d, pr);
  }

  lemma MeetingServes(v: View, d: Deployment, pr: Pair)
    requires Meets(d, Desired(pr)) && ClaimOf(pr) in v.claims
    ensures Serves(v, d, pr)
  {
    hide SharedClaimName, ClaimName, PoolLabel;
    var own := Desired(pr).labels;
    assert own == PoolLabels(pr.pool.name);
    assert ("k8s-app", "hostpath-provisioner") in own.Items;
    assert (POOL_LABEL, PoolLabel(pr.pool.name)) in own.Items;
    assert d.spec.claim == ClaimOf(pr);
  }

  /** What others do between runs: pods become ready or not, claims are bound, claims are added. */
  ghost predicate Between(a: View, b: View) {
    && b.deployments.Keys == a.deployments.Keys
    && (forall k | k in a.deployments :: b.deployments[k].(ready := a.deployments[k].ready) == a.deployments[k])
    && (forall k | k in a.claims :: k in b.claims && b.claims[k].(phase := a.claims[k].phase) == a.claims[k])
  }

  lemma BetweenKeepsOff(a: View, b: View, pairs: set<Pair>)
    requires Between(a, b)
    ensures Off(b.deployments, pairs) == Off(a.deployments, pairs)
    ensures Unclaimed(a.deployments, pairs) ==> Unclaimed(b.deployments, pairs)
  {
    forall k | k in a.deployments ensures Managed(b.deployments[k]) == Managed(a.deployments[k]) {
      assert b.deployments[k].(ready := a.deployments[k].ready) == a.deployments[k];
    }
    assert ManagedOf(b.deployments).Keys == ManagedOf(a.deployments).Keys;
  }

  ghost predicate Runs(trace: seq<View>, pairs: set<Pair>) {
    forall i | 0 <= i < |trace| - 1 :: NoGroundLost(trace[i], trace[i + 1], pairs) || Between(trace[i], trace[i + 1])
  }

  /** For a fixed spec and set of nodes: through any number of runs, each finished or cut off
      anywhere, the difference between owned and wanted only shrinks, and from the first completed
      run on it is empty. */
  lemma {:induction false} DifferenceShrinks(trace: seq<View>, pairs: set<Pair>, i: nat, j: nat)
    requires Runs(trace, pairs) && i <= j < |trace|
    ensures Off(trace[j].deployments, pairs) <= Off(trace[i].deployments, pairs)
    ensures Unclaimed(trace[i].deployments, pairs) ==> Unclaimed(trace[j].deployments, pairs)
    ensures Unclaimed(trace[i].deployments, pairs) && Converged(trace[i], pairs) ==>
              Off(trace[j].deployments, pairs) == {}
  {
    hide NoGroundLost, Between, Off, Unclaimed, Converged;
    if i < j {
      DifferenceShrinks(trace, pairs, i, j - 1);
      var a, b := trace[j - 1], trace[j - 1 + 1];
      if NoGroundLost(a, b, pairs) { OffNeverGrows(a, b, pairs); } else { BetweenKeepsOff(a, b, pairs); }
    } else if Unclaimed(trace[i].deployments, pairs) && Converged(trace[i], pairs) {
      ExactConvergence(trace[i], pairs);
    }
  }

  // ------------------------------------------------------------------------------- rest

  /** Pairs that share a deployment name ask for the same deployment. */
  ghost predicate Agree(pairs: set<Pair>) {
    forall p, q | p in pairs && q in pairs && NameOf(p) == NameOf(q) :: Desired(p) == Desired(q)
  }

  /** When they agree, a completed run leaves nothing for the next one to do. */
  lemma ConvergedRests(v: View, pairs: set<Pair>)
    requires Converged(v, pairs) && Agree(pairs)
    ensures AtRest(v, pairs)
  {
    forall pr | pr in pairs
      ensures Refreshed(v.deployments[NameOf(pr)], Desired(pr)) == v.deployments[NameOf(pr)]
    {
      var d := v.deployments[NameOf(pr)];
      assert Good(d, NameOf(pr), pairs);
      var q :| q in pairs && NameOf(q) == NameOf(pr) && Meets(d, Desired(q));
      assert Desired(q) == Desired(pr);
      FittingIsRefreshed(d, Desired(pr));
    }
  }

  lemma FittingIsRefreshed(d: Deployment, want: Deployment)
    requires Meets(d, want)
    ensures Refreshed(d, want) == d
  {
    forall k | k in want.labels ensures k in d.labels && d.labels[k] == want.labels[k] {
      assert (k, want.labels[k]) in want.labels.Items;
    }
    assert d.labels + want.labels == d.labels;
  }

  lemma SameRefreshedSame(d: Deployment, p: Pair, q: Pair)
    requires Refreshed(d, Desired(p)) == d && Refreshed(d, Desired(q)) == d
    ensures Desired(p) == Desired(q)
  {
    var l, m := Desired(p).labels, Desired(q).labels;
    assert l.Keys == m.Keys;
    forall k | k in l ensures l[k] == m[k] { assert (d.labels + l)[k] == l[k] && (d.labels + m)[k] == m[k]; }
    assert l == m;
    assert Desired(p).spec.(deprecated := d.spec.deprecated) == Desired(q).spec.(deprecated := d.spec.deprecated);
    assert Desired(p).spec.deprecated == Desired(q).spec.deprecated;
  }

  ghost function PairNamed(pairs: set<Pair>, k: string): Pair
    requires k in NamesOf(pairs)
  {
    var pr :| pr in pairs && NameOf(pr) == k;
    pr
  }

  ghost function RestingView(pairs: set<Pair>): View {
    var names, claims, classes := NamesOf(pairs), set pr | pr in pairs :: ClaimOf(pr), set pr | pr in pairs ::
                                    ClassName(pr.pool);
    View(map k | k in names :: Desired(PairNamed(pairs, k)),
         map k | k in claims :: Claim(map[], ClaimTemplate([], false, ""), Pending),
         map k | k in classes :: StorageClass(""), 0)
  }

  lemma AgreeingRests(pairs: set<Pair>)
    requires Agree(pairs)
    ensures AtRest(RestingView(pairs), pairs)
  {
    hide Desired, NameOf, ClaimOf, ClassName, Refreshed, IsShared;
    var v := RestingView(pairs);
    forall pr | pr in pairs
      ensures NameOf(pr) in v.deployments
              && Refreshed(v.deployments[NameOf(pr)], Desired(pr)) == v.deployments[NameOf(pr)]
    {
      assert NameOf(pr) in NamesOf(pairs);
      assert Desired(PairNamed(pairs, NameOf(pr))) == Desired(pr);
      DesiredRests(pr);
    }
  }

  lemma DesiredRests(pr: Pair)
    ensures Refreshed(Desired(pr), Desired(pr)) == Desired(pr)
  {
    FittingIsRefreshed(Desired(pr), Desired(pr));
  }

  /** There is a state at rest exactly when the wanted pairs agree. */
  lemma RestIffAgree(pairs: set<Pair>)
    ensures (exists v :: AtRest(v, pairs)) <==> Agree(pairs)
  {
    hide Desired, NameOf, Refreshed;
    if v :| AtRest(v, pairs) {
      forall p, q | p in pairs && q in pairs && NameOf(p) == NameOf(q) ensures Desired(p) == Desired(q) {
        SameRefreshedSame(v.deployments[NameOf(p)], p, q);
      }
    }
    if Agree(pairs) { AgreeingRests(pairs); }
  }

  /** Completed runs as ReconcileStoragePools promises them, with what others do in between. */
  ghost predicate CompletedRuns(trace: seq<View>, later: seq<View>, pairs: set<Pair>) {
    |later| == |trace| && (forall i | 0 <= i < |trace| :: later[i].writes >= trace[i].writes)
    && forall i | 0 <= i < |trace| - 1 ::
      later[i].writes <= trace[i + 1].writes && (trace[i + 1].writes == later[i].writes ==> AtRest(later[i], pairs))
  }

  /** When two pairs contend for a deployment, no completed run is without a write, whatever happens
      between runs: there are at least as many writes as runs. */
  lemma {:induction false} ContendersNeverRest(trace: seq<View>, later: seq<View>, pairs: set<Pair>, i: nat)
    requires CompletedRuns(trace, later, pairs) && i < |trace| && !Agree(pairs)
    ensures trace[i].writes >= trace[0].writes + i
  {
    hide Agree, AtRest;
    if i > 0 {
      ContendersNeverRest(trace, later, pairs, i - 1);
      RestIffAgree(pairs);
      assert later[i - 1].writes <= trace[i - 1 + 1].writes;
    }
  }

  /** Pool names that are no dash extensions of each other agree on all nodes with names that
      fit; a pool name may be listed once only, as admission checks. */
  lemma NoConfusionAgrees(spec: Spec, nodes: set<string>)
    requires NoConfusion(set p | p in spec.storagePools :: p.name)
    requires forall p, q | p in spec.storagePools && q in spec.storagePools && p.name == q.name :: p == q
    requires forall p, n | p in spec.storagePools && n in nodes :: Fits(p.name, n)
    ensures Agree(WantedPairs(spec, nodes))
  {
    var names := set p | p in spec.storagePools :: p.name;
    var pairs := WantedPairs(spec, nodes);
    forall p, q | p in pairs && q in pairs && NameOf(p) == NameOf(q) ensures Desired(p) == Desired(q) {
      assert p.pool.name in names && q.pool.name in names;
      DeploymentNamesDistinct(names, p.pool.name, p.node, q.pool.name, q.node);
    }
  }

  /** Which pool is unmounted when a deployment is deleted: for a name without a hash, the pool it
      was made for exactly when no earlier pool name is a prefix of the pair's name. */
  lemma {:induction false} PrefixFindsPool(pools: seq<StoragePool>, i: nat, node: string)
    requires i < |pools| && Fits(pools[i].name, node) && forall j | 0 <= j < i :: pools[j] != pools[i]
    ensures PoolByPrefix(pools, DeploymentName(pools[i].name, node)) == Some(pools[i]) <==>
            forall j | 0 <= j < i :: !Strings.HasPrefix(PairName(pools[i].name, node), pools[j].name)
  {
    var name := DeploymentName(pools[i].name, node);
    DeploymentNameShape(pools[i].name, node);
    PrefixOfName(PairName(pools[i].name, node), pools[0].name);
    if i == 0 {
      assert Strings.HasPrefix(PairName(pools[0].name, node), pools[0].name);
    } else {
      PrefixFindsPool(pools[1..], i - 1, node);
      assert pools[1..][i - 1] == pools[i];
      assert forall j | 0 <= j < i - 1 :: pools[1..][j] == pools[j + 1];
      if Strings.HasPrefix(PairName(pools[i].name, node), pools[0].name) {
        assert PoolByPrefix(pools, name) == Some(pools[0]);
      } else {
        assert forall j | 1 <= j < i :: pools[j] == pools[1..][j - 1];
      }
    }
  }

  lemma PrefixOfName(s: string, p: string)
    ensures Strings.HasPrefix(POOL_PREFIX + "-" + s, POOL_PREFIX + "-" + p) <==> Strings.HasPrefix(s, p)
  {
    var head := POOL_PREFIX + "-";
    assert (head + s)[|head|..] == s;
    if Strings.HasPrefix(head + s, head + p) {
      assert (head + s)[..|head + p|] == head + p;
      assert s[..|p|] == (head + s)[|head|..|head + p|] == p;
    }
    if Strings.HasPrefix(s, p) { assert (head + s)[..|head + p|] == head + p; }
  }

  // ----------------------------------------------------------------------------- claims

  /** Deployments that are restarted because their service account was missing go. */
  ghost predicate Restarted(a: View, b: View) {
    Kept(b.deployments, a.deployments) && b == a.(deployments := b.deployments, writes := b.writes)
  }

  /** Pools are reconciled without losing ground; then deployments under a new account may go. */
  ghost predicate ViewMoved(a: View, b: View) {
    exists mid, pairs :: NoGroundLost(a, mid, pairs) && Restarted(mid, b)
  }

  /** Anything that happens: runs, whatever spec and nodes they see and wherever they are cut off,
      and what others do in between. */
  ghost predicate History(trace: seq<View>) {
    forall i | 0 <= i < |trace| - 1 :: ViewMoved(trace[i], trace[i + 1]) || Between(trace[i], trace[i + 1])
  }

  /** b has every claim of a, as it was made. */
  ghost predicate ClaimsStay(a: View, b: View) {
    forall k | k in a.claims :: k in b.claims && b.claims[k].(phase := a.claims[k].phase) == a.claims[k]
  }

  lemma StepKeepsClaims(a: View, b: View)
    requires ViewMoved(a, b) || Between(a, b)
    ensures ClaimsStay(a, b)
    ensures ClaimsFirst(a.deployments, a.claims) ==> ClaimsFirst(b.deployments, b.claims)
  {
    if Between(a, b) {
      forall k | ClaimsFirst(a.deployments, a.claims) && k in b.deployments && b.deployments[k].controlled
        ensures b.deployments[k].spec.claim in b.claims
      {
        assert b.deployments[k].(ready := a.deployments[k].ready) == a.deployments[k];
      }
    }
  }

  /** In every reachable state each deployment of the custom resource mounts a claim that exists,
      and a claim is never deleted or rewritten, whatever becomes of its pool's template. */
  lemma {:induction false} ClaimsComeFirstAndStay(trace: seq<View>, i: nat, j: nat)
    requires History(trace) && i <= j < |trace| && ClaimsFirst(trace[i].deployments, trace[i].claims)
    ensures ClaimsFirst(trace[j].deployments, trace[j].claims) && ClaimsStay(trace[i], trace[j])
  {
    hide ViewMoved, Between, ClaimsFirst;
    if i < j {
      ClaimsComeFirstAndStay(trace, i, j - 1);
      StepKeepsClaims(trace[j - 1], trace[j - 1 + 1]);
    }
  }
}
