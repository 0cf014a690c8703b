// Reconciling storage pools (storagepool.go): a claim and a deployment for every pool with a claim
// template and every node that runs a CSI pod, deletion of every other deployment, and the jobs
// that unmount what is deleted.

module StoragePools {
  import opened CustomResource
  import opened Names
  import opened Cluster
  import opened Cleanup
  import Strings

  const POOL_LABEL := "kubevirt.io.hostpath-provisioner/storagePool"
  const DEFAULT_CLASS := "hpp-overlay"

  // ------------------------------------------------------------------- desired objects

  type Templated = p: StoragePool | p.template.Some?
    witness StoragePool("", Some(ClaimTemplate([], false, "")), "", None, "")

  /** A pool that gets deployments, on one node. */
  datatype Pair = Pair(pool: Templated, node: string)

  function NameOf(pr: Pair): string {
    DeploymentName(pr.pool.name, pr.node)
  }

  function RecommendedLabels(): map<string, string> {
    map["k8s-app" := APP, "app.kubernetes.io/managed-by" := "hostpath-provisioner-operator",
        "app.kubernetes.io/component" := "storage"]
  }

  function PoolLabels(pool: string): map<string, string> {
    RecommendedLabels()[POOL_LABEL := PoolLabel(pool)][POOL_PREFIX := PoolLabel(pool)]
  }

  /** The claim a pair mounts: one for the pool if it is shared, one for the node otherwise. */
  function ClaimOf(pr: Pair): string {
    if IsShared(pr.pool.template.value) then SharedClaimName(pr.pool.name) else ClaimName(pr.pool.name, pr.node)
  }

  function Desired(pr: Pair): Deployment {
    Deployment(true, PoolLabels(pr.pool.name),
               DeploymentSpec(PoolLabel(pr.pool.name), pr.node, ClaimOf(pr), pr.pool.path, pr.pool.template.value.block,
                              CSI_ACCOUNT, ""), 0)
  }

  /** A found deployment after an update: the operator's labels over the found ones, and the
      desired spec except for the field the API server fills in. */
  function Refreshed(found: Deployment, desired: Deployment): Deployment {
    found.(labels := found.labels + desired.labels, spec := desired.spec.(deprecated := found.spec.deprecated))
  }

  function DesiredClaim(pool: Templated): Claim {
    Claim(RecommendedLabels()[POOL_LABEL := PoolLabel(pool.name)], pool.template.value, Pending)
  }

  function ClassName(pool: StoragePool): string {
    if pool.overlayClassName != "" then pool.overlayClassName else DEFAULT_CLASS
  }

  /** Nodes that run a live pod of the current CSI daemon set. */
  function UsedNodes(daemonSets: map<string, DaemonSet>, pods: map<string, Pod>): set<string> {
    if CSI_DAEMON_SET !in daemonSets then {}
    else set p | p in pods && pods[p].app && !pods[p].terminating && pods[p].owner == daemonSets[CSI_DAEMON_SET].uid ::
           pods[p].node
  }

  function WantedPairs(spec: Spec, nodes: set<string>): set<Pair> {
    set p, n | p in spec.storagePools && p.template.Some? && n in nodes :: Pair(p, n)
  }

  function NamesOf(pairs: set<Pair>): set<string> {
    set pr | pr in pairs :: NameOf(pr)
  }

  /** First pool whose prefix the deployment name carries, as getStoragePoolForDeployment finds it. */
  function PoolByPrefix(pools: seq<StoragePool>, name: string): Option<StoragePool> {
    if pools == [] then None
    else if Strings.HasPrefix(name, POOL_PREFIX + "-" + pools[0].name) then Some(pools[0])
    else PoolByPrefix(pools[1..], name)
  }

  // ------------------------------------------------------------------ what a phase does

  /** d is what some wanted pair of this name asks for, whatever else its labels say. */
  ghost predicate Meets(d: Deployment, want: Deployment) {
    want.labels.Items <= d.labels.Items && d.spec.(deprecated := want.spec.deprecated) == want.spec
  }

  ghost predicate Good(d: Deployment, name: string, pairs: set<Pair>)
  {
    exists pr :: pr in pairs && NameOf(pr) == name && Meets(d, Desired(pr))
  }

  /** The creating phase: every deployment is as it was or as a wanted pair asks, owners never
      change, and new ones belong to the custom resource. */
  ghost predicate Grown(a: map<string, Deployment>, b: map<string, Deployment>, pairs: set<Pair>)
  {
    && (forall k | k in a :: k in b && b[k].controlled == a[k].controlled && b[k].ready == a[k].ready)
    && (forall k | k in b :: (k in a && b[k] == a[k]) || Good(b[k], k, pairs))
    && (forall k | k in b && k !in a :: b[k].controlled)
  }

  /** Every deployment of the custom resource mounts a claim that exists. */
  ghost predicate ClaimsFirst(deployments: map<string, Deployment>, claims: map<string, Claim>) {
    forall k | k in deployments && deployments[k].controlled :: deployments[k].spec.claim in claims
  }

  /** There is nothing to create or change for any of the pairs. */
  ghost predicate Settled(deployments: map<string, Deployment>, claims: map<string, Claim>,
                          classes: map<string, StorageClass>, pairs: set<Pair>)
  {
    forall pr | pr in pairs ::
      && NameOf(pr) in deployments && Refreshed(deployments[NameOf(pr)], Desired(pr)) == deployments[NameOf(pr)]
      && ClaimOf(pr) in claims
      && (IsShared(pr.pool.template.value) ==> ClassName(pr.pool) in classes)
  }

  lemma GrownTransitive(a: map<string, Deployment>, b: map<string, Deployment>, c: map<string, Deployment>,
                        pairs: set<Pair>)
    requires Grown(a, b, pairs) && Grown(b, c, pairs)
    ensures Grown(a, c, pairs)
  {
  }

  // ---------------------------------------------------------------------- reading state

  /** How many requests it takes to find the nodes in use. */
  function NodeRequests(daemonSets: map<string, DaemonSet>, pods: map<string, Pod>): nat {
    if CSI_DAEMON_SET !in daemonSets then 1 else 2 + |UsedNodes(daemonSets, pods)|
  }

  /** A pod of the CSI daemon set there is, with the app label, that runs on a node and is not going away. */
  predicate RunsOn(daemonSets: map<string, DaemonSet>, pods: map<string, Pod>, p: string, node: string) {
    && p in pods && pods[p].node == node && pods[p].app && !pods[p].terminating
    && "hostpath-provisioner-csi" in daemonSets && pods[p].owner == daemonSets["hostpath-provisioner-csi"].uid
  }

  method GetNodesByDaemonSet(r: Client) returns (err: Option<Error>, nodes: seq<string>)
    modifies r`sky
    ensures Quiet(old(r.sky), r.sky, r.jobs)
    ensures err.None? ==> (set n | n in nodes) == UsedNodes(r.daemonSets, r.pods)
    ensures err.None? ==> forall n :: n in nodes <==> exists p :: RunsOn(r.daemonSets, r.pods, p, n)
    ensures err.None? ==> |nodes| == |UsedNodes(r.daemonSets, r.pods)|
    ensures old(r.sky.events) == [] ==> (err.None? <==> UsedNodes(r.daemonSets, r.pods) <= r.sky.nodes)
    ensures Smooth(old(r.sky), NodeRequests(r.daemonSets, r.pods))
            && UsedNodes(r.daemonSets, r.pods) <= old(r.sky.nodes) ==>
              err.None? && Skipped(old(r.sky), r.sky, NodeRequests(r.daemonSets, r.pods))
  {
    hide Next, Skipped, Smooth, Uids, Obliging;
    hide RunsOn;
    ghost var n, sky := NodeRequests(r.daemonSets, r.pods), r.sky;
    SkipNone(sky);
    if Smooth(sky, n) { SkipStep(sky, sky, 0, n); }
    nodes := [];
    var f := r.Tick();
    var got := Got(r.daemonSets, CSI_DAEMON_SET, f);
    if got == NotFound {
      UsedMeans(r.daemonSets, r.pods, []);
      return None, [];
    }
    if got != Ok { return Some(Request), []; }
    if Smooth(sky, n) { SkipStep(sky, r.sky, 1, n); }
    f := r.Tick();
    if ReadFails(f) { return Some(Request), []; }
    if Smooth(sky, n) {
      SkipKeepsNodes(sky, r.sky, 2);
      SkipOn(sky, r.sky, 2, n - 2);
    }
    err, nodes := GetNodes(r, UsedNodes(r.daemonSets, r.pods));
    if err.None? { UsedMeans(r.daemonSets, r.pods, nodes); }

  }

  lemma UsedMeans(daemonSets: map<string, DaemonSet>, pods: map<string, Pod>, nodes: seq<string>)
    requires (set n | n in nodes) == UsedNodes(daemonSets, pods)
    ensures forall n :: n in nodes <==> exists p :: RunsOn(daemonSets, pods, p, n)
  {
    var used := UsedNodes(daemonSets, pods);
    forall n ensures n in nodes <==> n in used { assert n in (set m | m in nodes) <==> n in used; }
    forall n, p | RunsOn(daemonSets, pods, p, n) ensures n in used { }
    forall n | n in used ensures exists p :: RunsOn(daemonSets, pods, p, n) {
      var p :| p in pods && pods[p].app && !pods[p].terminating && pods[p].owner == daemonSets[CSI_DAEMON_SET].uid
               && pods[p].node == n;
      assert RunsOn(daemonSets, pods, p, n);
    }
  }

  method GetNodes(r: Client, names: set<string>) returns (err: Option<Error>, nodes: seq<string>)
    modifies r`sky
    ensures Quiet(old(r.sky), r.sky, r.jobs)
    ensures err.None? ==> (set n | n in nodes) == names && |nodes| == |names|
    ensures old(r.sky.events) == [] ==> (err.None? <==> names <= r.sky.nodes)
    ensures Smooth(old(r.sky), |names|) && names <= old(r.sky.nodes) ==>
              err.None? && Skipped(old(r.sky), r.sky, |names|)
  {
    hide Next, Skipped, Smooth, Uids, Obliging;
    ghost var sky := r.sky;
    SkipNone(sky);
    nodes := [];
    var todo := names;
    while todo != {}
      invariant todo <= names && (set n | n in nodes) == names - todo && |nodes| + |todo| == |names|
      invariant Quiet(old(r.sky), r.sky, r.jobs)
      invariant old(r.sky.events) == [] ==> names - todo <= r.sky.nodes
      invariant Smooth(sky, |names|) && names <= sky.nodes ==> Skipped(sky, r.sky, |nodes|)
    {
      var n :| n in todo;
      if Smooth(sky, |names|) && names <= sky.nodes { SkipStep(sky, r.sky, |nodes|, |names|); }
      var f := r.Tick();
      if Smooth(sky, |names|) && names <= sky.nodes { SkipKeepsNodes(sky, r.sky, |nodes| + 1); }
      if ReadFails(f) { return Some(Request), nodes; }
      if n !in r.sky.nodes { return Some(Missing(n)), nodes; }
      assert (set m | m in nodes + [n]) == (set m | m in nodes) + {n};
      nodes := nodes + [n];
      todo := todo - {n};
    }
    err := None;
  }

  // ------------------------------------------------------------------------- creating

  /** The map of deployments not yet accounted for, shared by the loops of one reconcile. */
  class WorkingSet {
    var items: map<string, Deployment>

    constructor (items: map<string, Deployment>)
      ensures this.items == items
    {
      this.items := items;
    }
  }

  method ReconcileClaim(r: Client, pool: Templated, name: string) returns (err: Option<Error>)
    modifies r`sky, r`claims, r`writes
    ensures Quiet(old(r.sky), r.sky, r.jobs)
    ensures r.claims == old(r.claims) || (name !in old(r.claims)
                                          && r.claims == old(r.claims)[name := DesiredClaim(pool)])
    ensures err.None? ==> name in r.claims
    ensures name in old(r.claims) ==> r.claims == old(r.claims) && r.writes == old(r.writes)
    ensures old(r.writes) <= r.writes && (r.writes == old(r.writes) ==> r.claims == old(r.claims))
    ensures name in old(r.claims) && Smooth(old(r.sky), 1) ==> err.None? && Skipped(old(r.sky), r.sky, 1)
    ensures old(r.sky.events) == [] ==> err.None?
  {
    var f := r.Tick();
    var got := Got(r.claims, name, f);
    if got == NotFound {
      f := r.Tick();
      r.writes := r.writes + 1;
      var reply, claims := Created(r.claims, name, DesiredClaim(pool), f).0,
                           Created(r.claims, name, DesiredClaim(pool), f).1;
      r.claims := claims;
      return if reply == Ok || reply == AlreadyExists then None else Some(Request);
    }
    err := if got == Ok then None else Some(Request);
  }

  method ReconcileBackendStorageClass(r: Client, pool: Templated) returns (err: Option<Error>)
    modifies r`sky, r`classes, r`writes
    ensures Quiet(old(r.sky), r.sky, r.jobs)
    ensures r.classes == old(r.classes)
            || (ClassName(pool) !in old(r.classes)
                && r.classes == old(r.classes)[ClassName(pool) := StorageClass(pool.name)])
    ensures err.None? ==> ClassName(pool) in r.classes
    ensures ClassName(pool) in old(r.classes) ==> r.classes == old(r.classes) && r.writes == old(r.writes)
    ensures old(r.writes) <= r.writes && (r.writes == old(r.writes) ==> r.classes == old(r.classes))
    ensures ClassName(pool) in old(r.classes) && Smooth(old(r.sky), 1) ==> err.None? && Skipped(old(r.sky), r.sky, 1)
    ensures old(r.sky.events) == [] ==> err.None?
  {
    var f := r.Tick();
    var got := Got(r.classes, ClassName(pool), f);
    if got == NotFound {
      f := r.Tick();
      r.writes := r.writes + 1;
      var reply, classes := Created(r.classes, ClassName(pool), StorageClass(pool.name), f).0,
                            Created(r.classes, ClassName(pool), StorageClass(pool.name), f).1;
      r.classes := classes;
      return if reply == Ok || reply == AlreadyExists then None else Some(Request);
    }
    err := if got == Ok then None else Some(Request);
  }

  /** The deployment of a pair after it is reconciled. */
  function Placed(m: map<string, Deployment>, pr: Pair): Deployment {
    if NameOf(pr) in m then Refreshed(m[NameOf(pr)], Desired(pr)) else Desired(pr)
  }

  /** The deployments of these pairs are what a refresh makes of them. */
  ghost predicate UpToDate(m: map<string, Deployment>, done: set<Pair>) {
    forall pr | pr in done :: NameOf(pr) in m && Refreshed(m[NameOf(pr)], Desired(pr)) == m[NameOf(pr)]
  }

  method ReconcileDeploymentByNode(r: Client, pr: Pair, current: WorkingSet) returns (err: Option<Error>)
    modifies r`sky, r`deployments, r`writes, current
    ensures Quiet(old(r.sky), r.sky, r.jobs)
    ensures r.deployments == old(r.deployments)
            || r.deployments == old(r.deployments)[NameOf(pr) := Placed(old(r.deployments), pr)]
    ensures err.None? ==> r.deployments == old(r.deployments)[NameOf(pr) := Placed(old(r.deployments), pr)]
    ensures err.None? ==> current.items == if NameOf(pr) in old(r.deployments) then old(current.items) - {NameOf(pr)}
                                           else old(current.items)
    ensures NameOf(pr) in old(r.deployments) && Placed(old(r.deployments), pr) == old(r.deployments)[NameOf(pr)] ==>
              r.deployments == old(r.deployments) && r.writes == old(r.writes)
    ensures old(r.writes) <= r.writes && (r.writes == old(r.writes) ==> r.deployments == old(r.deployments))
    ensures err.None? && r.writes == old(r.writes) ==> UpToDate(old(r.deployments), {pr})
    ensures UpToDate(old(r.deployments), {pr}) && Smooth(old(r.sky), 1) ==> err.None? && Skipped(old(r.sky), r.sky, 1)
    ensures old(r.sky.events) == [] ==> err.None?
  {
    var name, desired := NameOf(pr), Desired(pr);
    var f := r.Tick();
    var got := Got(r.deployments, name, f);
    if got == NotFound {
      f := r.Tick();
      r.writes := r.writes + 1;
      var reply, deployments := Created(r.deployments, name, desired, f).0, Created(r.deployments, name, desired, f).1;
      r.deployments := deployments;
      return if reply == Ok then None else Some(Request);
    }
    if got != Ok { return Some(Request); }
    current.items := current.items - {name};
    var found := r.deployments[name];
    var updated := Refreshed(found, desired);
    if updated != found {
      f := r.Tick();
      r.writes := r.writes + 1;
      var reply, deployments := Updated(r.deployments, name, updated, f).0, Updated(r.deployments, name, updated, f).1;
      r.deployments := deployments;
      return if reply == Ok then None else Some(Request);
    }
    assert r.deployments[name := found] == r.deployments;
    err := None;
  }

  lemma PlacingGrows(m: map<string, Deployment>, pr: Pair, pairs: set<Pair>)
    requires pr in pairs
    ensures Grown(m, m[NameOf(pr) := Placed(m, pr)], pairs) && Good(Placed(m, pr), NameOf(pr), pairs)
  {
    var want := Desired(pr);
    if NameOf(pr) in m {
      var found := m[NameOf(pr)];
      forall item | item in want.labels.Items ensures item in (found.labels + want.labels).Items {
        assert item.0 in found.labels + want.labels;
      }
    }
    assert Meets(Placed(m, pr), want);
  }

  ghost function PairsOf(pool: Templated, nodes: seq<string>): set<Pair> {
    set n | n in nodes :: Pair(pool, n)
  }

  /** The stored state the creating phase works on. */
  datatype View = View(deployments: map<string, Deployment>, claims: map<string, Claim>,
                       classes: map<string, StorageClass>, writes: nat)

  ghost function ViewOf(r: Client): View
    reads r
  {
    View(r.deployments, r.claims, r.classes, r.writes)
  }

  /** Every pair of a set has a deployment that fits, and its claim. */
  ghost predicate Present(v: View, done: set<Pair>, pairs: set<Pair>) {
    forall pr | pr in done :: NameOf(pr) in v.deployments && Good(v.deployments[NameOf(pr)], NameOf(pr), pairs)
                              && ClaimOf(pr) in v.claims
  }

  /** Every shared pool of a set has its storage class. */
  ghost predicate Classed(v: View, done: set<Pair>) {
    forall pr | pr in done && IsShared(pr.pool.template.value) :: ClassName(pr.pool) in v.classes
  }

  /** New claims are made from the template of a wanted pair, new classes for its pool. */
  ghost predicate Sourced(a: View, b: View, pairs: set<Pair>) {
    && (forall k | k in b.claims && k !in a.claims ::
          exists pr :: pr in pairs && k == ClaimOf(pr) && b.claims[k] == DesiredClaim(pr.pool))
    && (forall k | k in b.classes && k !in a.classes ::
          exists pr :: pr in pairs && IsShared(pr.pool.template.value) && k == ClassName(pr.pool)
                       && b.classes[k] == StorageClass(pr.pool.name))
  }

  /** All a creating phase can do, finished or cut off anywhere. */
  ghost predicate Progress(a: View, b: View, pairs: set<Pair>) {
    && Grown(a.deployments, b.deployments, pairs)
    && Kept(a.claims, b.claims) && Kept(a.classes, b.classes) && Sourced(a, b, pairs)
    && (ClaimsFirst(a.deployments, a.claims) ==> ClaimsFirst(b.deployments, b.claims))
    && (Settled(a.deployments, a.claims, a.classes, pairs) ==> b == a)
    && a.writes <= b.writes && (b.writes == a.writes ==> b == a)
  }

  lemma ProgressTransitive(a: View, b: View, c: View, pairs: set<Pair>)
    requires Progress(a, b, pairs) && Progress(b, c, pairs)
    ensures Progress(a, c, pairs)
    ensures a.deployments.Keys <= b.deployments.Keys <= c.deployments.Keys
    ensures a.claims.Keys <= b.claims.Keys <= c.claims.Keys
  {
    GrownTransitive(a.deployments, b.deployments, c.deployments, pairs);
    forall k | k in c.claims && k !in a.claims
      ensures exists pr :: pr in pairs && k == ClaimOf(pr) && c.claims[k] == DesiredClaim(pr.pool)
    {
      if k in b.claims { assert c.claims[k] == b.claims[k]; }
    }
    forall k | k in c.classes && k !in a.classes
      ensures exists pr :: pr in pairs && k == ClassName(pr.pool) && c.classes[k] == StorageClass(pr.pool.name)
    {
      if k in b.classes { assert c.classes[k] == b.classes[k]; }
    }
  }

  lemma ProgressKeepsPresent(b: View, c: View, done: set<Pair>, more: set<Pair>, pairs: set<Pair>)
    requires Progress(b, c, pairs) && Present(b, done, pairs) && Present(c, more, pairs)
    ensures Present(c, done + more, pairs)
  {
  }

  lemma ProgressKeepsClassed(b: View, c: View, done: set<Pair>, more: set<Pair>, pairs: set<Pair>)
    requires Progress(b, c, pairs) && Classed(b, done) && Classed(c, more)
    ensures Classed(c, done + more)
  {
  }

  /** Without a write nothing changed, neither before nor after. */
  lemma WritesShow(a: View, b: View, c: View, pairs: set<Pair>)
    requires Progress(a, b, pairs) && Progress(b, c, pairs)
    ensures a.writes <= b.writes <= c.writes && (c.writes == a.writes ==> a == b == c)
  {
  }

  lemma UpToDateUnion(m: map<string, Deployment>, done: set<Pair>, more: set<Pair>)
    ensures UpToDate(m, done + more) <==> UpToDate(m, done) && UpToDate(m, more)
  {
  }

  lemma NamesUnion(done: set<Pair>, more: set<Pair>)
    ensures NamesOf(done + more) == NamesOf(done) + NamesOf(more)
  {
  }

  lemma PresentNone(v: View, pairs: set<Pair>)
    ensures Present(v, {}, pairs) && Classed(v, {}) && UpToDate(v.deployments, {}) && NamesOf({}) == {}
  {
  }

  lemma ProgressReflexive(a: View, pairs: set<Pair>)
    ensures Progress(a, a, pairs)
  {
  }

  lemma ClaimProgress(a: View, b: View, pr: Pair, pairs: set<Pair>)
    requires pr in pairs && b == a.(claims := b.claims, writes := b.writes)
    requires b.claims == a.claims || (ClaimOf(pr) !in a.claims
                                      && b.claims == a.claims[ClaimOf(pr) := DesiredClaim(pr.pool)])
    requires ClaimOf(pr) in a.claims ==> b == a
    requires a.writes <= b.writes && (b.writes == a.writes ==> b == a)
    ensures Progress(a, b, pairs)
  {
  }

  lemma PlacingProgress(a: View, b: View, pr: Pair, pairs: set<Pair>)
    requires pr in pairs && ClaimOf(pr) in a.claims && b == a.(deployments := b.deployments, writes := b.writes)
    requires b.deployments == a.deployments || b.deployments == a.deployments[NameOf(pr) := Placed(a.deployments, pr)]
    requires NameOf(pr) in a.deployments && Placed(a.deployments, pr) == a.deployments[NameOf(pr)] ==> b == a
    requires a.writes <= b.writes && (b.writes == a.writes ==> b == a)
    ensures Progress(a, b, pairs)
    ensures b.deployments == a.deployments[NameOf(pr) := Placed(a.deployments, pr)] ==> Present(b, {pr}, pairs)
  {
    PlacingGrows(a.deployments, pr, pairs);
  }

  lemma ClassProgress(a: View, b: View, pr: Pair, pairs: set<Pair>)
    requires pr in pairs && b == a.(classes := b.classes, writes := b.writes) && IsShared(pr.pool.template.value)
    requires b.classes == a.classes || (ClassName(pr.pool) !in a.classes
                                        && b.classes == a.classes[ClassName(pr.pool) := StorageClass(pr.pool.name)])
    requires ClassName(pr.pool) in a.classes ==> b == a
    requires a.writes <= b.writes && (b.writes == a.writes ==> b == a)
    ensures Progress(a, b, pairs)
  {
  }

  // How many requests the loops take when there is nothing to create or change.

  function PairRequests(pool: Templated): nat {
    if IsShared(pool.template.value) then 1 else 2
  }

  function NodesRequests(pool: Templated, nodes: nat): nat {
    if IsShared(pool.template.value) then nodes else 2 * nodes
  }

  function PoolRequests(pool: Templated, nodes: nat): nat {
    if IsShared(pool.template.value) then (if nodes == 0 then 0 else 2 + nodes) else 2 * nodes
  }

  function SpecRequests(pools: seq<StoragePool>, nodes: nat): nat {
    if pools == [] then 0 else (if pools[0].template.Some? then PoolRequests(pools[0], nodes)
                                else 0) + SpecRequests(pools[1..], nodes)
  }

  /** Nothing to create or change, and that many requests are served in peace. */
  ghost predicate Peaceful(v: View, sky: Sky, n: nat, pairs: set<Pair>) {
    Settled(v.deployments, v.claims, v.classes, pairs) && Smooth(sky, n)
  }

  /** A moment of the creating phase; left are the deployments not yet accounted for. */
  datatype Point = Point(view: View, sky: Sky, left: map<string, Deployment>)

  ghost function PointOf(r: Client, current: WorkingSet): Point
    reads r, current
  {
    Point(ViewOf(r), r.sky, current.items)
  }

  /** What a part of the creating phase does for some of the wanted pairs: progress on every outcome, and
      when it is through, their deployments and claims are there and accounted for. Without a write they
      were up to date; in peace it takes n requests. */
  ghost predicate Stage(a: Point, b: Point, done: set<Pair>, pairs: set<Pair>, n: nat, ok: bool) {
    && Progress(a.view, b.view, pairs)
    && (ok ==>
          && Present(b.view, done, pairs) && b.left == a.left - NamesOf(done)
          && (b.view.writes == a.view.writes ==> UpToDate(b.view.deployments, done)))
    && (Peaceful(a.view, a.sky, n, pairs) ==> ok && Skipped(a.sky, b.sky, n))
    && (a.sky.events == [] ==> ok && b.sky.events == [])
  }

  lemma NoStage(a: Point, pairs: set<Pair>)
    ensures Stage(a, a, {}, pairs, 0, true) && Classed(a.view, {})
  {
    ProgressReflexive(a.view, pairs);
    PresentNone(a.view, pairs);
    SkipNone(a.sky);
  }

  /** The rest of a peaceful phase is peaceful. */
  lemma PeaceStays(a: Point, b: Point, done: set<Pair>, pairs: set<Pair>, n: nat, more: nat)
    requires Stage(a, b, done, pairs, n, true) && Peaceful(a.view, a.sky, n + more, pairs)
    ensures Peaceful(b.view, b.sky, more, pairs) && forall c | Skipped(b.sky, c, more) :: Skipped(a.sky, c, n + more)
  {
    hide Progress, Present, UpToDate, NamesOf;
    SmoothLess(a.sky, n + more, n);
    SkipOn(a.sky, b.sky, n, more);
    SettledStays(a.view, b.view, pairs);
  }

  lemma StageThen(a: Point, b: Point, c: Point, done: set<Pair>, step: set<Pair>, pairs: set<Pair>, n: nat, more: nat)
    requires Stage(a, b, done, pairs, n, true) && Stage(b, c, step, pairs, more, true)
    ensures Stage(a, c, done + step, pairs, n + more, true)
    ensures Classed(b.view, done) && Classed(c.view, step) ==> Classed(c.view, done + step)
  {
    hide Progress, Present, UpToDate, NamesOf, Classed, Skipped, Peaceful;
    ProgressTransitive(a.view, b.view, c.view, pairs);
    WritesShow(a.view, b.view, c.view, pairs);
    ProgressKeepsPresent(b.view, c.view, done, step, pairs);
    if c.view.writes == a.view.writes { UpToDateUnion(c.view.deployments, done, step); }
    NamesUnion(done, step);
    if Classed(b.view, done) && Classed(c.view, step) { ProgressKeepsClassed(b.view, c.view, done, step, pairs); }
    if Peaceful(a.view, a.sky, n + more, pairs) { PeaceStays(a, b, done, pairs, n, more); }
  }

  /** A failed part makes the whole fail. */
  lemma StageFailed(a: Point, b: Point, c: Point, done: set<Pair>, step: set<Pair>, all: set<Pair>, pairs: set<Pair>,
                    n: nat, more: nat, total: nat)
    requires Stage(a, b, done, pairs, n, true) && Stage(b, c, step, pairs, more, false) && n + more <= total
    ensures Stage(a, c, all, pairs, total, false)
  {
    hide Progress, Present, UpToDate, NamesOf, Skipped;
    ProgressTransitive(a.view, b.view, c.view, pairs);
    if Peaceful(a.view, a.sky, total, pairs) {
      SmoothLess(a.sky, total, n + more);
      PeaceStays(a, b, done, pairs, n, more);
    }
  }

  lemma StageKeepsKeys(a: Point, b: Point, done: set<Pair>, pairs: set<Pair>, n: nat, ok: bool)
    requires Stage(a, b, done, pairs, n, ok)
    ensures a.view.deployments.Keys <= b.view.deployments.Keys && a.view.claims.Keys <= b.view.claims.Keys
    ensures ok ==> b.left.Keys <= a.left.Keys
  {
  }

  /** Looking for a claim, and creating it. */
  lemma ClaimStage(a: Point, b: Point, pr: Pair, pairs: set<Pair>, ok: bool)
    requires Progress(a.view, b.view, pairs) && b.left == a.left && pr in pairs
    requires a.sky.events == [] ==> ok && b.sky.events == []
    requires ClaimOf(pr) in a.view.claims && Smooth(a.sky, 1) ==> ok && Skipped(a.sky, b.sky, 1)
    ensures Stage(a, b, {}, pairs, 1, ok)
  {
    hide Progress, Present, NamesOf;
    PresentNone(b.view, pairs);
  }

  lemma ClassStage(a: Point, b: Point, pr: Pair, pairs: set<Pair>, ok: bool)
    requires Progress(a.view, b.view, pairs) && b.left == a.left && pr in pairs && IsShared(pr.pool.template.value)
    requires a.sky.events == [] ==> ok && b.sky.events == []
    requires ClassName(pr.pool) in a.view.classes && Smooth(a.sky, 1) ==> ok && Skipped(a.sky, b.sky, 1)
    ensures Stage(a, b, {}, pairs, 1, ok)
  {
    hide Progress, Present, NamesOf;
    PresentNone(b.view, pairs);
  }

  /** Looking for a deployment, and creating or updating it. */
  lemma PlacingStage(a: Point, b: Point, pr: Pair, pairs: set<Pair>, ok: bool)
    requires Progress(a.view, b.view, pairs) && pr in pairs
    requires a.sky.events == [] ==> ok && b.sky.events == []
    requires UpToDate(a.view.deployments, {pr}) && Smooth(a.sky, 1) ==> ok && Skipped(a.sky, b.sky, 1)
    requires ok ==> Present(b.view, {pr}, pairs) && b.left == a.left - {NameOf(pr)}
    requires ok && b.view.writes == a.view.writes ==> UpToDate(b.view.deployments, {pr})
    ensures Stage(a, b, {pr}, pairs, 1, ok)
  {
    hide Progress, Present;
    assert NamesOf({pr}) == {NameOf(pr)};
  }

  /** The body of the inner loops: one pool on one node. */
  method ReconcilePair(r: Client, pr: Pair, current: WorkingSet, ghost pairs: set<Pair>) returns (err: Option<Error>)
    requires pr in pairs && (IsShared(pr.pool.template.value) ==> ClaimOf(pr) in r.claims)
    requires current.items.Keys <= r.deployments.Keys
    modifies r`sky, r`deployments, r`claims, r`writes, current
    ensures Quiet(old(r.sky), r.sky, r.jobs)
    ensures Stage(old(PointOf(r, current)), PointOf(r, current), {pr}, pairs, PairRequests(pr.pool), err.None?)
  {
    hide Progress, Present, Desired, NameOf, Uids, UpToDate, Settled, ClassName, Next, Skipped, Smooth, Stage, Later;
    ghost var a := PointOf(r, current);
    NoStage(a, pairs);
    if !IsShared(pr.pool.template.value) {
      err := ReconcileClaim(r, pr.pool, ClaimName(pr.pool.name, pr.node));
      ghost var b := PointOf(r, current);
      ClaimProgress(a.view, b.view, pr, pairs);
      StillCalm(a.sky, b.sky, r.jobs);
      ClaimStage(a, b, pr, pairs, err.None?);
      if err.Some? {
        StageFailed(a, a, b, {}, {}, {pr}, pairs, 0, 1, 2);
        return;
      }
    } else {
      ClaimProgress(a.view, a.view, pr, pairs);
    }
    ghost var b := PointOf(r, current);
    err := ReconcileDeploymentByNode(r, pr, current);
    ghost var c := PointOf(r, current);
    PlacingProgress(b.view, c.view, pr, pairs);
    StillCalm(b.sky, c.sky, r.jobs);
    QuietTransitive(a.sky, b.sky, c.sky, r.jobs);
    PlacingStage(b, c, pr, pairs, err.None?);
    assert {} + {pr} == {pr};
    if !IsShared(pr.pool.template.value) {
      if err.None? { StageThen(a, b, c, {}, {pr}, pairs, 1, 1); }
      else { StageFailed(a, b, c, {}, {pr}, {pr}, pairs, 1, 1, 2); }
    }
  }

  /** One pool on all nodes: the inner loops. */
  method ReconcileNodes(r: Client, pool: Templated, nodes: seq<string>, current: WorkingSet, ghost pairs: set<Pair>)
    returns (err: Option<Error>)
    requires PairsOf(pool, nodes) <= pairs
    requires IsShared(pool.template.value) ==> SharedClaimName(pool.name) in r.claims
    requires current.items.Keys <= r.deployments.Keys
    modifies r`sky, r`deployments, r`claims, r`writes, current
    ensures Quiet(old(r.sky), r.sky, r.jobs)
    ensures Stage(old(PointOf(r, current)), PointOf(r, current), PairsOf(pool, nodes), pairs,
                  NodesRequests(pool, |nodes|), err.None?)
  {
    hide Stage, Quiet, Uids, Obliging, NamesOf, PairsOf, NodesRequests, PairRequests;
    ghost var a, n := PointOf(r, current), NodesRequests(pool, |nodes|);
    NoStage(a, pairs);
    QuietHere(r.sky, r.jobs);
    NoNodes(pool);
    for i := 0 to |nodes|
      invariant Quiet(old(r.sky), r.sky, r.jobs)
      invariant current.items.Keys <= r.deployments.Keys
      invariant IsShared(pool.template.value) ==> SharedClaimName(pool.name) in r.claims
      invariant Stage(a, PointOf(r, current), PairsOf(pool, nodes[..i]), pairs, NodesRequests(pool, i), true)
    {
      ghost var b, done, step, pr := PointOf(r, current), NodesRequests(pool, i), PairRequests(pool),
                                     Pair(pool, nodes[i]);
      OneMoreNode(pool, nodes, i);
      err := ReconcilePair(r, Pair(pool, nodes[i]), current, pairs);
      ghost var c := PointOf(r, current);
      StageKeepsKeys(b, c, {pr}, pairs, step, err.None?);
      QuietTransitive(a.sky, b.sky, c.sky, r.jobs);
      if err.Some? {
        StageFailed(a, b, c, PairsOf(pool, nodes[..i]), {pr}, PairsOf(pool, nodes), pairs, done, step, n);
        return;
      }
      StageThen(a, b, c, PairsOf(pool, nodes[..i]), {pr}, pairs, done, step);
    }
    assert nodes[..|nodes|] == nodes;
    err := None;
  }

  lemma NoNodes(pool: Templated)
    ensures PairsOf(pool, []) == {} && NodesRequests(pool, 0) == 0
  {
  }

  lemma OneMoreNode(pool: Templated, nodes: seq<string>, i: nat)
    requires i < |nodes|
    ensures PairsOf(pool, nodes[..i + 1]) == PairsOf(pool, nodes[..i]) + {Pair(pool, nodes[i])}
            && Pair(pool, nodes[i]) in PairsOf(pool, nodes)
    ensures NodesRequests(pool, i + 1) == NodesRequests(pool, i) + PairRequests(pool) <= NodesRequests(pool, |nodes|)
  {
  }

  /** One pool with a claim template: the body of the outer loop. */
  method ReconcilePool(r: Client, pool: Templated, nodes: seq<string>, current: WorkingSet, ghost pairs: set<Pair>)
    returns (err: Option<Error>)
    requires PairsOf(pool, nodes) <= pairs
    requires current.items.Keys <= r.deployments.Keys
    modifies r`sky, r`deployments, r`claims, r`classes, r`writes, current
    ensures Quiet(old(r.sky), r.sky, r.jobs)
    ensures Stage(old(PointOf(r, current)), PointOf(r, current), PairsOf(pool, nodes), pairs,
                  PoolRequests(pool, |nodes|), err.None?)
    ensures err.None? ==> Classed(ViewOf(r), PairsOf(pool, nodes))
  {
    hide Stage, Quiet, Uids, Obliging;
    if !IsShared(pool.template.value) {
      err := ReconcileNodes(r, pool, nodes, current, pairs);
      return;
    }
    // nothing is created for a shared pool without nodes
    if |nodes| == 0 {
      NoStage(PointOf(r, current), pairs);
      QuietHere(r.sky, r.jobs);
      assert PairsOf(pool, nodes) == {};
      return None;
    }
    err := ReconcileSharedPool(r, pool, nodes, current, pairs);
  }

  /** A shared pool on at least one node: its claim, its deployments, its storage class. */
  method ReconcileSharedPool(r: Client, pool: Templated, nodes: seq<string>, current: WorkingSet,
                             ghost pairs: set<Pair>) returns (err: Option<Error>)
    requires IsShared(pool.template.value) && |nodes| > 0
    requires PairsOf(pool, nodes) <= pairs
    requires current.items.Keys <= r.deployments.Keys
    modifies r`sky, r`deployments, r`claims, r`classes, r`writes, current
    ensures Quiet(old(r.sky), r.sky, r.jobs)
    ensures Stage(old(PointOf(r, current)), PointOf(r, current), PairsOf(pool, nodes), pairs, 2 + |nodes|, err.None?)
    ensures err.None? ==> Classed(ViewOf(r), PairsOf(pool, nodes))
  {
    hide Stage, Quiet, Uids, Obliging, NamesOf, PairsOf, Progress, Smooth, Skipped, Classed, ClassName, IsShared,
      NodesRequests;
    ghost var a, all, pr := PointOf(r, current), PairsOf(pool, nodes), Pair(pool, nodes[0]);
    OneMoreNode(pool, nodes, 0);
    SharedRequests(pool, |nodes|);
    NoStage(a, pairs);
    err := ReconcileClaim(r, pool, SharedClaimName(pool.name));
    ghost var b := PointOf(r, current);
    ClaimProgress(a.view, b.view, pr, pairs);
    StillCalm(a.sky, b.sky, r.jobs);
    ClaimStage(a, b, pr, pairs, err.None?);
    if err.Some? {
      StageFailed(a, a, b, {}, {}, all, pairs, 0, 1, 2 + |nodes|);
      return;
    }
    err := ReconcileNodes(r, pool, nodes, current, pairs);
    ghost var c := PointOf(r, current);
    QuietTransitive(a.sky, b.sky, c.sky, r.jobs);
    if err.Some? {
      StageFailed(a, b, c, {}, all, all, pairs, 1, |nodes|, 2 + |nodes|);
      return;
    }
    StageThen(a, b, c, {}, all, pairs, 1, |nodes|);
    assert {} + all == all == all + {};
    err := ReconcileBackendStorageClass(r, pool);
    ghost var d := PointOf(r, current);
    ClassProgress(c.view, d.view, pr, pairs);
    StillCalm(c.sky, d.sky, r.jobs);
    QuietTransitive(a.sky, c.sky, d.sky, r.jobs);
    ClassStage(c, d, pr, pairs, err.None?);
    if err.Some? {
      StageFailed(a, c, d, all, {}, all, pairs, 1 + |nodes|, 1, 2 + |nodes|);
      return;
    }
    StageThen(a, c, d, all, {}, pairs, 1 + |nodes|, 1);
    AllClassed(ViewOf(r), pool, nodes);
  }

  lemma SharedRequests(pool: Templated, nodes: nat)
    ensures IsShared(pool.template.value) ==> NodesRequests(pool, nodes) == nodes
  {
  }

  lemma ProgressKeepsKeys(a: View, b: View, pairs: set<Pair>)
    requires Progress(a, b, pairs)
    ensures a.deployments.Keys <= b.deployments.Keys && a.claims.Keys <= b.claims.Keys
  {
  }

  lemma AllClassed(v: View, pool: Templated, nodes: seq<string>)
    requires ClassName(pool) in v.classes
    ensures Classed(v, PairsOf(pool, nodes))
  {
  }

  // ------------------------------------------------------------------------- deleting

  /** The unused deployment of a known pool was on a node that left, has its cleanup job, or was refused
      one, which unless requests are refused happens only to names that start with a dash. */
  ghost predicate CleanedUp(pools: seq<StoragePool>, k: string, d: Deployment, v: JobView, steady: set<string>,
                            obliging: bool) {
    match PoolByPrefix(pools, k)
    case None => true
    case Some(p) =>
      var job := JobName(p.name, d.spec.node);
      d.spec.node !in steady || JobMade(v, job) || (job in v.refused && (obliging ==> Dashed(job)))
  }

  /** The job unmounts the pool that the name of this deployment leads to, on its node, under a name
      the API server accepts. */
  predicate JobFor(pools: seq<StoragePool>, k: string, d: Deployment, job: JobRecord) {
    match PoolByPrefix(pools, k)
    case None => false
    case Some(p) => job.pool == p.name && job.node == d.spec.node && !Dashed(job.name)
  }

  /** Jobs are made for deployments that are gone, and for nothing else. */
  ghost predicate MadeForDeleted(pools: seq<StoragePool>, unused: map<string, Deployment>, m: map<string, Deployment>,
                                 a: JobView, b: JobView) {
    forall uid | uid in b.log && uid !in a.log :: exists k ::
                                                    k in unused && k !in m && JobFor(pools, k, unused[k], b.log[uid])
  }

  lemma CleanedUpStays(pools: seq<StoragePool>, k: string, d: Deployment, a: JobView, b: JobView, steady: set<string>,
                       less: set<string>, obliging: bool, still: bool)
    requires CleanedUp(pools, k, d, a, steady, still) && JobsAdvance(a, b) && WellLogged(a) && less <= steady
    requires obliging ==> still
    ensures CleanedUp(pools, k, d, b, less, obliging)
  {
    if PoolByPrefix(pools, k).Some? && JobMade(a, JobName(PoolByPrefix(pools, k).value.name, d.spec.node)) {
      JobMadeStays(a, b, JobName(PoolByPrefix(pools, k).value.name, d.spec.node));
    }
  }

  /** The deletion takes effect, and either its own answer is lost or the request for the node fails. */
  predicate CutShort(events: seq<Event>) {
    FaultAt(events, 0).Unacknowledged? || (FaultAt(events, 0).Fine? && !FaultAt(events, 1).Fine?)
  }

  /** What loses the unmount of a deployment that is deleted: a job of that name left over that completed
      already; or none there and the run cut short, a name nobody may have, or the creation refused. */
  predicate Loses(v: JobView, job: string, events: seq<Event>) {
    if job in v.jobs then v.jobs[job].uid in v.finished
    else CutShort(events) || Dashed(job) || FaultAt(events, 2).Refused?
  }

  /** What becomes of one unused deployment. It stays when its deletion is refused. Else it goes, and with
      it, if the node stays, comes a job that did not complete before, unless the events lose it. */
  ghost predicate Deletion(pools: seq<StoragePool>, k: string, d: Deployment, a: map<string, Deployment>,
                           b: map<string, Deployment>, v: JobView, w: JobView, events: seq<Event>,
                           steady: set<string>, ok: bool) {
    && (b == a || b == a - {k}) && (ok ==> k !in b) && (k in a ==> (k in b <==> FaultAt(events, 0).Refused?))
    && (!ok ==> w == v.(finished := w.finished)) && w.finished <= v.finished + Uids(v.jobs)
    && match PoolByPrefix(pools, k)
       case None => true
       case Some(p) =>
         var job := JobName(p.name, d.spec.node);
         k in a && !FaultAt(events, 0).Refused? ==>
           && (!ok <==> CutShort(events))
           && (Loses(v, job, events) ==> w == v.(finished := w.finished, refused := w.refused))
           && (!Loses(v, job, events) && d.spec.node in steady ==> job in w.jobs && w.jobs[job].uid !in v.finished)
  }

  /** One unused deployment goes, and then its mount on the host. */
  method DeleteUnusedDeployment(r: Client, pools: seq<StoragePool>, k: string, d: Deployment)
    returns (err: Option<Error>)
    requires WellLogged(JobsOf(r)) && r.sky.steady <= r.sky.nodes
    modifies r`sky, r`jobs, r`writes, r`nextUid, r`log, r`refused, r`deployments
    ensures Later(old(r.sky), r.sky)
    ensures JobsAdvance(old(JobsOf(r)), JobsOf(r))
    ensures Deletion(pools, k, d, old(r.deployments), r.deployments, old(JobsOf(r)), JobsOf(r), old(r.sky.events),
                     r.sky.steady, err.None?)
    ensures err.None? ==> k !in r.deployments
    ensures err.None? ==> CleanedUp(pools, k, d, JobsOf(r), r.sky.steady, Obliging(old(r.sky.events)))
    ensures Obliging(old(r.sky.events)) ==> DashedRefused(old(r.refused), r.refused)
    ensures forall uid | uid in r.log && uid !in old(r.log) :: k !in r.deployments && JobFor(pools, k, d, r.log[uid])
    ensures r.writes > old(r.writes)
    ensures old(r.sky.events) == [] ==> err.None?
  {
    hide JobsAdvance, WellLogged, JobName, Dashed, Done, Covered, Obliging, Uids, DashedRefused, Later, Quiet;
    ghost var a, events, sky := JobsOf(r), r.sky.events, r.sky;
    NoneRefused(r.refused);
    NewUid(a);
    var f := r.Tick();
    r.writes := r.writes + 1;
    var reply, deployments := Deleted(r.deployments, k, f).0, Deleted(r.deployments, k, f).1;
    r.deployments := deployments;
    ghost var b := JobsOf(r);
    WaitingAdvances(a, b);
    AdvanceKeepsRecord(a, b);
    EventsPass(events, r.sky.events);
    ghost var mid := r.sky;
    QuietMeans(sky, mid, r.jobs);
    CalmStays(sky, mid);
    if reply == Failed { return Some(Request); }
    err := None;
    var pool := PoolByPrefix(pools, k);
    if pool.Some? {
      var node;
      err, node := CreateCleanupJobForDeployment(r, d, pool.value.name);
      LaterTransitive(sky, mid, r.sky);
      LaterMeans(mid, r.sky);
      JobsAdvanceTransitive(a, b, JobsOf(r));
    }
  }

  lemma NewUid(v: JobView)
    requires WellLogged(v)
    ensures v.nextUid !in v.finished
  {
  }

  lemma EventsPass(events: seq<Event>, rest: seq<Event>)
    requires rest == if events == [] then [] else events[1..]
    ensures forall i: nat :: FaultAt(rest, i) == FaultAt(events, i + 1)
    ensures Obliging(events) ==> Obliging(rest)
  {
  }

  lemma NoneMade(pools: seq<StoragePool>, unused: map<string, Deployment>, m: map<string, Deployment>, a: JobView)
    ensures forall b: JobView | b.log == a.log :: MadeForDeleted(pools, unused, m, a, b)
  {
  }

  lemma MadeOn(pools: seq<StoragePool>, unused: map<string, Deployment>, before: map<string, Deployment>,
               after: map<string, Deployment>, a: JobView, b: JobView, c: JobView, k: string)
    requires MadeForDeleted(pools, unused, before, a, b) && after.Keys <= before.Keys && JobsAdvance(b, c)
             && k in unused
    requires forall uid | uid in c.log && uid !in b.log :: k !in after && JobFor(pools, k, unused[k], c.log[uid])
    ensures MadeForDeleted(pools, unused, after, a, c)
  {
    forall uid | uid in c.log && uid !in a.log
      ensures exists j :: j in unused && j !in after && JobFor(pools, j, unused[j], c.log[uid])
    {
      if uid in b.log {
        var j :| j in unused && j !in before && JobFor(pools, j, unused[j], b.log[uid]);
        assert c.log[uid] == b.log[uid];
      }
    }
  }

  lemma DeletionShows(pools: seq<StoragePool>, k: string, d: Deployment, a: map<string, Deployment>,
                      b: map<string, Deployment>, v: JobView, w: JobView, events: seq<Event>, steady: set<string>,
                      ok: bool)
    requires Deletion(pools, k, d, a, b, v, w, events, steady, ok)
    ensures (b == a || b == a - {k}) && (ok ==> k !in b)
  {
  }

  /** Of all deployments that went, at most one was neither given its job nor refused it. */
  ghost predicate OneLost(pools: seq<StoragePool>, items: map<string, Deployment>, a: map<string, Deployment>,
                          b: map<string, Deployment>, v: JobView, steady: set<string>, obliging: bool) {
    forall j, k | j in items && j in a && j !in b && k in items && k in a && k !in b ::
      || j == k
      || CleanedUp(pools, j, items[j], v, steady, obliging)
      || CleanedUp(pools, k, items[k], v, steady, obliging)
  }

  /** What becomes of the unused deployments and their mounts, whether all of them went or not. */
  ghost predicate Cleared(pools: seq<StoragePool>, items: map<string, Deployment>, a: View, b: View, v: JobView,
                          w: JobView, from: Sky, to: Sky, ok: bool) {
    && b == a.(deployments := b.deployments, writes := b.writes) && Kept(b.deployments, a.deployments)
    && a.deployments.Keys - b.deployments.Keys <= items.Keys
    && (ok ==>
          forall k | k in items ::
            k !in b.deployments && CleanedUp(pools, k, items[k], w, to.steady, Obliging(from.events)))
    && MadeForDeleted(pools, items, b.deployments, v, w)
    && OneLost(pools, items, a.deployments, b.deployments, w, to.steady, Obliging(from.events))
    && (forall k | items.Keys == {k} ::
          Deletion(pools, k, items[k], a.deployments, b.deployments, v, w, from.events, to.steady, ok))
    && (items == map[] ==> b == a && w == v && to == from)
    && a.writes <= b.writes && (b.writes == a.writes ==> items == map[])
  }

  /** The deletion loop with some of the items still to do. */
  ghost predicate Clearing(pools: seq<StoragePool>, items: map<string, Deployment>, todo: set<string>, a: View, b: View,
                           v: JobView, w: JobView, from: Sky, to: Sky) {
    && b == a.(deployments := b.deployments, writes := b.writes) && Kept(b.deployments, a.deployments)
    && todo <= items.Keys
    && (forall k | k in a.deployments && k !in b.deployments :: k in items && k !in todo)
    && (forall k | k in items && k !in todo ::
          k !in b.deployments && CleanedUp(pools, k, items[k], w, to.steady, Obliging(from.events)))
    && (Obliging(from.events) ==> Obliging(to.events))
    && MadeForDeleted(pools, items, b.deployments, v, w)
    && a.writes <= b.writes
    && if todo == items.Keys then b == a && w == v && to == from
       else a.writes < b.writes && forall k | items.Keys == {k} ::
              Deletion(pools, k, items[k], a.deployments, b.deployments, v, w, from.events, to.steady, true)
  }

  lemma ClearingBegins(pools: seq<StoragePool>, items: map<string, Deployment>, a: View, v: JobView, from: Sky)
    ensures Clearing(pools, items, items.Keys, a, a, v, v, from, from)
  {
    NoneMade(pools, items, a.deployments, v);
  }

  /** One more item, done or not. */
  lemma ClearingGoesOn(pools: seq<StoragePool>, items: map<string, Deployment>, todo: set<string>, a: View, b: View,
                       c: View, v: JobView, w: JobView, z: JobView, from: Sky, mid: Sky, to: Sky, k: string, ok: bool)
    requires Clearing(pools, items, todo, a, b, v, w, from, mid) && k in todo && JobsAdvance(w, z) && WellLogged(w)
             && to.steady <= mid.steady
    requires c == b.(deployments := c.deployments, writes := c.writes) && c.writes > b.writes
    requires Deletion(pools, k, items[k], b.deployments, c.deployments, w, z, mid.events, to.steady, ok)
             && (ok ==> CleanedUp(pools, k, items[k], z, to.steady, Obliging(mid.events)))
    requires Obliging(mid.events) ==> Obliging(to.events)
    requires forall uid | uid in z.log && uid !in w.log :: k !in c.deployments && JobFor(pools, k, items[k], z.log[uid])
    ensures ok ==> Clearing(pools, items, todo - {k}, a, c, v, z, from, to)
    ensures !ok ==> Cleared(pools, items, a, c, v, z, from, to, false)
  {
    hide CleanedUp, MadeForDeleted, JobFor, JobsAdvance, WellLogged, Deletion, Obliging;
    var all, rest := Obliging(from.events), Obliging(mid.events);
    DeletionShows(pools, k, items[k], b.deployments, c.deployments, w, z, mid.events, to.steady, ok);
    MadeOn(pools, items, b.deployments, c.deployments, v, w, z, k);
    forall j | j in items && j !in todo ensures CleanedUp(pools, j, items[j], z, to.steady, all) {
      CleanedUpStays(pools, j, items[j], w, z, mid.steady, to.steady, all, all);
    }
    if ok {
      CleanedUpWeaker(pools, k, items[k], z, to.steady, all, rest);
    }
  }

  lemma CleanedUpWeaker(pools: seq<StoragePool>, k: string, d: Deployment, v: JobView, steady: set<string>,
                        obliging: bool, still: bool)
    requires CleanedUp(pools, k, d, v, steady, still) && (obliging ==> still)
    ensures CleanedUp(pools, k, d, v, steady, obliging)
  {
  }

  lemma ClearingEnds(pools: seq<StoragePool>, items: map<string, Deployment>, a: View, b: View, v: JobView, w: JobView,
                     from: Sky, to: Sky)
    requires Clearing(pools, items, {}, a, b, v, w, from, to)
    ensures Cleared(pools, items, a, b, v, w, from, to, true)
  {
    hide CleanedUp, MadeForDeleted, Deletion;
  }

  method DeleteUnused(r: Client, pools: seq<StoragePool>, items: map<string, Deployment>) returns (err: Option<Error>)
    requires WellLogged(JobsOf(r)) && r.sky.steady <= r.sky.nodes
    modifies r`sky, r`jobs, r`writes, r`nextUid, r`log, r`refused, r`deployments
    ensures Later(old(r.sky), r.sky)
    ensures JobsAdvance(old(JobsOf(r)), JobsOf(r))
    ensures Cleared(pools, items, old(ViewOf(r)), ViewOf(r), old(JobsOf(r)), JobsOf(r), old(r.sky), r.sky, err.None?)
    ensures Obliging(old(r.sky.events)) ==> DashedRefused(old(r.refused), r.refused)
    ensures old(r.sky.events) == [] ==> err.None?
  {
    hide JobsAdvance, WellLogged, CleanedUp, JobFor, Deletion, Clearing, Cleared, Later, Obliging, DashedRefused;
    ghost var a, v, from := ViewOf(r), JobsOf(r), r.sky;
    var todo := items.Keys;
    ClearingBegins(pools, items, a, v, from);
    StandingAdvances(v);
    QuietHere(from, r.jobs);
    QuietMeans(from, from, r.jobs);
    NoneRefused(r.refused);
    while todo != {}
      invariant Later(from, r.sky) && r.sky.steady <= r.sky.nodes && JobsAdvance(v, JobsOf(r)) && WellLogged(JobsOf(r))
      invariant Clearing(pools, items, todo, a, ViewOf(r), v, JobsOf(r), from, r.sky)
      invariant todo <= items.Keys
      invariant Obliging(from.events) ==> Obliging(r.sky.events) && DashedRefused(v.refused, r.refused)
    {
      ghost var b, w, mid := ViewOf(r), JobsOf(r), r.sky;
      var k :| k in todo;
      err := DeleteUnusedDeployment(r, pools, k, items[k]);
      LaterMeans(mid, r.sky);
      LaterTransitive(from, mid, r.sky);
      StillObliging(mid, r.sky);
      if Obliging(from.events) { StillDashed(v.refused, w.refused, r.refused); }
      JobsAdvanceTransitive(v, w, JobsOf(r));
      AdvanceKeepsRecord(w, JobsOf(r));
      ClearingGoesOn(pools, items, todo, a, b, ViewOf(r), v, w, JobsOf(r), from, mid, r.sky, k, err.None?);
      CalmStays(from, mid);
      if err.Some? { return; }
      todo := todo - {k};
    }
    ClearingEnds(pools, items, a, ViewOf(r), v, JobsOf(r), from, r.sky);
    err := None;
  }

  // ------------------------------------------------------------------------ the whole run

  ghost predicate Owns(m: map<string, Deployment>, k: string) {
    k in m && Managed(m[k])
  }

  /** All a run can do to the stored objects, finished or cut off at any request: it creates and
      changes only what wanted pairs ask for, deletes only managed deployments nobody wants, and
      keeps claims and storage classes. */
  ghost predicate NoGroundLost(a: View, b: View, pairs: set<Pair>) {
    && (forall k | k in b.deployments && k in a.deployments ::
          b.deployments[k].controlled == a.deployments[k].controlled
          && (b.deployments[k] == a.deployments[k] || Good(b.deployments[k], k, pairs)))
    && (forall k | k in b.deployments && k !in a.deployments ::
          b.deployments[k].controlled && Good(b.deployments[k], k, pairs))
    && (forall k | k in a.deployments && k !in b.deployments :: Owns(a.deployments, k) && k !in NamesOf(pairs))
    && Kept(a.claims, b.claims) && Kept(a.classes, b.classes) && Sourced(a, b, pairs)
    && (ClaimsFirst(a.deployments, a.claims) ==> ClaimsFirst(b.deployments, b.claims))
  }

  /** Every wanted pair has its deployment, and no managed deployment is unwanted. */
  ghost predicate Converged(v: View, pairs: set<Pair>) {
    Present(v, pairs, pairs) && Classed(v, pairs) && forall k | Owns(v.deployments, k) :: k in NamesOf(pairs)
  }

  /** Nothing to create, change or delete. */
  ghost predicate AtRest(v: View, pairs: set<Pair>) {
    Settled(v.deployments, v.claims, v.classes, pairs) && forall k | Owns(v.deployments, k) :: k in NamesOf(pairs)
  }

  lemma RunLosesNothing(a: View, m: View, b: View, unused: set<string>, pairs: set<Pair>)
    requires Progress(a, m, pairs) && b == m.(deployments := b.deployments, writes := b.writes)
    requires forall k | k in unused :: Owns(a.deployments, k) && k !in NamesOf(pairs)
    requires Kept(b.deployments, m.deployments) && m.deployments.Keys - b.deployments.Keys <= unused
    ensures NoGroundLost(a, b, pairs) && a.deployments.Keys <= m.deployments.Keys
  {
    hide Good, Owns, NamesOf, Settled;
    assert forall k | k in b.deployments :: k in m.deployments && b.deployments[k] == m.deployments[k];
    assert ClaimsFirst(a.deployments, a.claims) ==> ClaimsFirst(b.deployments, b.claims);
    assert Sourced(a, b, pairs);
  }

  lemma RunConverges(a: View, m: View, b: View, pairs: set<Pair>)
    requires Progress(a, m, pairs) && Kept(b.deployments, m.deployments) && Present(m, pairs, pairs)
             && Classed(m, pairs)
    requires b == m.(deployments := b.deployments, writes := b.writes)
    requires m.deployments.Keys - b.deployments.Keys <= ManagedOf(a.deployments).Keys - NamesOf(pairs)
    requires forall k | k in ManagedOf(a.deployments) && k !in NamesOf(pairs) :: k !in b.deployments
    ensures Converged(b, pairs)
  {
    forall pr | pr in pairs ensures NameOf(pr) in b.deployments {
      assert NameOf(pr) in NamesOf(pairs);
    }
    forall k | Owns(b.deployments, k) ensures k in NamesOf(pairs) {
      if k in a.deployments && b.deployments[k] == a.deployments[k] { assert k in ManagedOf(a.deployments); }
    }
  }

  lemma RestingRun(a: View, m: View, pairs: set<Pair>)
    requires Progress(a, m, pairs) && AtRest(a, pairs)
    ensures m == a && ManagedOf(a.deployments) - NamesOf(pairs) == map[]
  {
    forall k | k in ManagedOf(a.deployments) ensures k in NamesOf(pairs) { assert Owns(a.deployments, k); }
  }

  /** Everything wanted is there, and unused are the managed deployments that no pair names. */
  ghost predicate AllCreated(a: View, m: View, pairs: set<Pair>, unused: map<string, Deployment>) {
    && Present(m, pairs, pairs) && Classed(m, pairs) && (m.writes == a.writes ==> UpToDate(m.deployments, pairs))
    && unused == ManagedOf(a.deployments) - NamesOf(pairs)
  }

  function CreateRequests(spec: Spec, daemonSets: map<string, DaemonSet>, pods: map<string, Pod>): nat {
    NodeRequests(daemonSets, pods) + 1 + SpecRequests(spec.storagePools, |UsedNodes(daemonSets, pods)|)
  }

  /** The run up to the deletions; unused is what the creating loops left in the working map. */
  method CreatePhase(r: Client, spec: Spec) returns (err: Option<Error>, unused: map<string, Deployment>)
    modifies r`sky, r`deployments, r`claims, r`classes, r`writes
    ensures Quiet(old(r.sky), r.sky, r.jobs)
    ensures Progress(old(ViewOf(r)), ViewOf(r), WantedPairs(spec, UsedNodes(r.daemonSets, r.pods)))
    ensures err.None? ==> AllCreated(old(ViewOf(r)), ViewOf(r), WantedPairs(spec, UsedNodes(r.daemonSets, r.pods)),
                                     unused)
    ensures old(r.sky.events) == [] && UsedNodes(r.daemonSets, r.pods) <= old(r.sky.nodes) ==> err.None?
    ensures var n := CreateRequests(spec, r.daemonSets, r.pods);
            Peaceful(old(ViewOf(r)), old(r.sky), n, WantedPairs(spec, UsedNodes(r.daemonSets, r.pods)))
            && UsedNodes(r.daemonSets, r.pods) <= old(r.sky.nodes) ==>
              err.None? && Skipped(old(r.sky), r.sky, n)
  {
    hide Progress, Present, Managed, Uids, Obliging, Settled, Skipped, Smooth, NodeRequests, SpecRequests, UsedNodes,
      Quiet, WantedPairs, Classed, UpToDate, Stage;
    ghost var used, a, sky, n := UsedNodes(r.daemonSets, r.pods), ViewOf(r), r.sky,
                                 CreateRequests(spec, r.daemonSets, r.pods);
    ghost var first := NodeRequests(r.daemonSets, r.pods);
    ghost var pairs := WantedPairs(spec, used);
    ProgressReflexive(ViewOf(r), pairs);
    QuietHere(sky, r.jobs);
    if Peaceful(a, sky, n, pairs) && used <= sky.nodes { SmoothLess(sky, n, first); }
    unused := map[];
    var nodes, listed;
    err, nodes := GetNodesByDaemonSet(r);
    QuietMeans(sky, r.sky, r.jobs);
    if err.Some? { return; }
    if Peaceful(a, sky, n, pairs) && used <= sky.nodes {
      SmoothLess(sky, n, first + 1);
      SkipOn(sky, r.sky, first, 1);
    }
    ghost var found := r.sky;
    err, listed := CurrentStoragePoolDeployments(r);
    QuietTransitive(sky, found, r.sky, r.jobs);
    if err.Some? { return; }
    if Peaceful(a, sky, n, pairs) && used <= sky.nodes { SkipOn(sky, r.sky, first + 1, n - first - 1); }
    var current := new WorkingSet(listed);
    ghost var b := PointOf(r, current);
    err := CreateAll(r, spec, nodes, current, pairs);
    QuietTransitive(sky, b.sky, r.sky, r.jobs);
    StageShows(b, PointOf(r, current), pairs, pairs, SpecRequests(spec.storagePools, |nodes|), err.None?);
    unused := current.items;
  }

  lemma StageShows(a: Point, b: Point, done: set<Pair>, pairs: set<Pair>, n: nat, ok: bool)
    requires Stage(a, b, done, pairs, n, ok)
    ensures Progress(a.view, b.view, pairs)
    ensures ok ==> Present(b.view, done, pairs) && b.left == a.left - NamesOf(done)
                   && (b.view.writes == a.view.writes ==> UpToDate(b.view.deployments, done))
    ensures Peaceful(a.view, a.sky, n, pairs) ==> ok && Skipped(a.sky, b.sky, n)
    ensures a.sky.events == [] ==> ok
  {
  }

  lemma MadeForMore(pools: seq<StoragePool>, unused: map<string, Deployment>, all: map<string, Deployment>,
                    m: map<string, Deployment>, a: JobView, b: JobView, c: JobView)
    requires MadeForDeleted(pools, unused, m, b, c) && Kept(unused, all) && b.log == a.log
    ensures MadeForDeleted(pools, all, m, a, c)
  {
    forall uid | uid in c.log && uid !in a.log ensures exists k ::
                                                         k in all && k !in m && JobFor(pools, k, all[k], c.log[uid]) {
      var k :| k in unused && k !in m && JobFor(pools, k, unused[k], c.log[uid]);
    }
  }

  /** Every deployment that went lost its node, belongs to no pool by its name, has its job, or was
      refused it. */
  ghost predicate AllCleanedUp(pools: seq<StoragePool>, a: map<string, Deployment>, b: map<string, Deployment>,
                               v: JobView, steady: set<string>, obliging: bool) {
    forall k | k in a && k !in b :: CleanedUp(pools, k, a[k], v, steady, obliging)
  }

  /** When no request of a completed run is refused, a deleted deployment whose node stayed and whose name
      leads to a pool has a job, if there never was one of that name, exactly when pool and node do not
      take 53 characters. */
  lemma JobUnlessDashed(pools: seq<StoragePool>, a: map<string, Deployment>, b: map<string, Deployment>, v: JobView,
                        w: JobView, steady: set<string>, k: string)
    requires AllCleanedUp(pools, a, b, w, steady, true) && MadeForDeleted(pools, a, b, v, w)
    requires JobsAdvance(v, w) && WellLogged(v) && k in a && k !in b && a[k].spec.node in steady
    requires PoolByPrefix(pools, k).Some?
    requires Unrecorded(v, JobName(PoolByPrefix(pools, k).value.name, a[k].spec.node))
    ensures var pool, node := PoolByPrefix(pools, k).value.name, a[k].spec.node;
            JobMade(w, JobName(pool, node)) <==> |pool| + 1 + |node| != 53
  {
    hide JobName;
    var pool, node := PoolByPrefix(pools, k).value.name, a[k].spec.node;
    var job := JobName(pool, node);
    JobNameStartsWithDash(pool, node);
    assert CleanedUp(pools, k, a[k], w, steady, true);
    if JobMade(w, job) {
      var uid :| uid in w.log && w.log[uid].name == job;
      var j :| j in a && j !in b && JobFor(pools, j, a[j], w.log[uid]);
    }
  }

  lemma RunClears(pools: seq<StoragePool>, a: View, m: View, b: View, v: JobView, w: JobView, z: JobView,
                  pairs: set<Pair>, unused: map<string, Deployment>, mid: Sky, to: Sky, ok: bool,
                  obliging: bool)
    requires Progress(a, m, pairs) && AllCreated(a, m, pairs, unused) && w.log == v.log
    requires obliging ==> Obliging(mid.events)
    requires Cleared(pools, unused, m, b, w, z, mid, to, ok)
    ensures ok ==> AllCleanedUp(pools, a.deployments, b.deployments, z, to.steady, obliging)
    ensures MadeForDeleted(pools, a.deployments, b.deployments, v, z)
            && OneLost(pools, a.deployments, a.deployments, b.deployments, z, to.steady, obliging)
  {
    hide CleanedUp, MadeForDeleted, OneLost, Deletion, Present, Classed, UpToDate, NamesOf, Managed, Progress, Obliging;
    assert Kept(unused, a.deployments);
    ProgressKeepsKeys(a, m, pairs);
    MadeForMore(pools, unused, a.deployments, b.deployments, v, w, z);
    LostOfAll(pools, unused, a, m, pairs, b.deployments, z, to.steady, obliging, Obliging(mid.events));
    forall k | ok && k in a.deployments && k !in b.deployments
      ensures CleanedUp(pools, k, a.deployments[k], z, to.steady, obliging)
    {
      assert k in m.deployments.Keys - b.deployments.Keys;
      CleanedUpWeaker(pools, k, a.deployments[k], z, to.steady, obliging, Obliging(mid.events));
    }
  }

  method ReconcileStoragePools(r: Client, spec: Spec) returns (err: Option<Error>)
    requires WellLogged(JobsOf(r)) && r.sky.steady <= r.sky.nodes
    modifies r`sky, r`jobs, r`writes, r`nextUid, r`log, r`refused, r`deployments, r`claims, r`classes
    ensures Later(old(r.sky), r.sky)
    ensures JobsAdvance(old(JobsOf(r)), JobsOf(r))
    ensures NoGroundLost(old(ViewOf(r)), ViewOf(r), WantedPairs(spec, UsedNodes(r.daemonSets, r.pods)))
    ensures err.None? ==> Converged(ViewOf(r), WantedPairs(spec, UsedNodes(r.daemonSets, r.pods)))
    ensures err.None? ==>
              AllCleanedUp(spec.storagePools, old(r.deployments), r.deployments, JobsOf(r), r.sky.steady,
                           Obliging(old(r.sky.events)))
    ensures Obliging(old(r.sky.events)) ==> DashedRefused(old(r.refused), r.refused)
    ensures MadeForDeleted(spec.storagePools, old(r.deployments), r.deployments, old(JobsOf(r)), JobsOf(r))
    ensures AtRest(old(ViewOf(r)), WantedPairs(spec, UsedNodes(r.daemonSets, r.pods))) ==>
              && ViewOf(r) == old(ViewOf(r)) && Quiet(old(r.sky), r.sky, r.jobs)
              && JobsOf(r) == old(JobsOf(r)).(finished := r.sky.finished)
    ensures OneLost(spec.storagePools, old(r.deployments), old(r.deployments), r.deployments, JobsOf(r), r.sky.steady,
                    Obliging(old(r.sky.events)))
    ensures UsedNodes(r.daemonSets, r.pods) <= old(r.sky.nodes) ==>
              LoneRun(spec.storagePools, old(ViewOf(r)), ViewOf(r), old(JobsOf(r)), JobsOf(r),
                      WantedPairs(spec, UsedNodes(r.daemonSets, r.pods)),
                      old(r.sky), CreateRequests(spec, r.daemonSets, r.pods), r.sky.steady, err.None?)
    ensures old(r.writes) <= r.writes
    ensures err.None? && r.writes == old(r.writes) ==>
              AtRest(old(ViewOf(r)), WantedPairs(spec, UsedNodes(r.daemonSets, r.pods)))
    ensures old(r.sky.events) == [] && UsedNodes(r.daemonSets, r.pods) <= old(r.sky.nodes) ==> err.None?
  {
    hide Progress, JobsAdvance, WellLogged, AtRest, Converged, NoGroundLost, Uids, WantedPairs, UsedNodes,
      MadeForDeleted, LoneRun, OneLost, CreateRequests, Later, Quiet, Skipped, Peaceful, Cleared, AllCleanedUp,
      AllCreated, Obliging, DashedRefused;
    ghost var a, v, sky, used := ViewOf(r), JobsOf(r), r.sky, UsedNodes(r.daemonSets, r.pods);
    ghost var pairs, n := WantedPairs(spec, used), CreateRequests(spec, r.daemonSets, r.pods);
    var unused;
    err, unused := CreatePhase(r, spec);
    ghost var m, w, mid, obliging := ViewOf(r), JobsOf(r), r.sky, Obliging(sky.events);
    QuietMeans(sky, mid, r.jobs);
    StillObliging(sky, mid);
    NoneRefused(r.refused);
    WaitingAdvances(v, w);
    AdvanceKeepsRecord(v, w);
    CreatingLoses(spec.storagePools, a, m, pairs, v, w, mid.steady, obliging);
    if err.Some? {
      if !Peaceful(a, sky, n, pairs) { NoLoneRun(spec.storagePools, a, m, v, w, pairs, sky, n, mid.steady, false); }
      return;
    }
    err := DeleteUnused(r, spec.storagePools, unused);
    ghost var b, z, ok := ViewOf(r), JobsOf(r), err.None?;
    LaterTransitive(sky, mid, r.sky);
    JobsAdvanceTransitive(v, w, z);
    RunMoves(spec.storagePools, a, m, b, w, z, pairs, unused, mid, r.sky, ok);
    RunClears(spec.storagePools, a, m, b, v, w, z, pairs, unused, mid, r.sky, ok, obliging);
    if used <= sky.nodes { LoneRunThrough(spec.storagePools, a, m, b, v, w, z, pairs, unused, sky, mid, r.sky, n, ok); }
  }

  /** The creating phase alone. */
  lemma CreatingLoses(pools: seq<StoragePool>, a: View, m: View, pairs: set<Pair>, v: JobView, w: JobView,
                      steady: set<string>, obliging: bool)
    requires Progress(a, m, pairs) && w.log == v.log
    ensures NoGroundLost(a, m, pairs) && a.writes <= m.writes && (AtRest(a, pairs) ==> m == a)
    ensures MadeForDeleted(pools, a.deployments, m.deployments, v, w)
            && OneLost(pools, a.deployments, a.deployments, m.deployments, w, steady, obliging)
  {
    hide NoGroundLost, OneLost, MadeForDeleted, AtRest;
    RunLosesNothing(a, m, m, {}, pairs);
    NoneLost(pools, a, m, pairs, w, steady, obliging);
    NoneMade(pools, a.deployments, m.deployments, v);
    if AtRest(a, pairs) { RestingRun(a, m, pairs); }
  }

  /** What both phases together do to the stored objects. */
  lemma RunMoves(pools: seq<StoragePool>, a: View, m: View, b: View, w: JobView, z: JobView, pairs: set<Pair>,
                 unused: map<string, Deployment>, mid: Sky, to: Sky, ok: bool)
    requires Progress(a, m, pairs) && AllCreated(a, m, pairs, unused) && Cleared(pools, unused, m, b, w, z, mid, to, ok)
    ensures NoGroundLost(a, b, pairs) && (ok ==> Converged(b, pairs))
    ensures AtRest(a, pairs) ==> b == a && z == w && to == mid
    ensures a.writes <= b.writes && (b.writes == a.writes ==> AtRest(a, pairs))
  {
    hide Progress, Present, NameOf, NamesOf, CleanedUp, MadeForDeleted, OneLost, Deletion, AtRest, Converged,
      NoGroundLost, Managed, UpToDate, Classed;
    RunLosesNothing(a, m, b, unused.Keys, pairs);
    if ok { RunConverges(a, m, b, pairs); }
    WritesGrow(a, m, pairs);
    if AtRest(a, pairs) { RestingRun(a, m, pairs); }
    if b.writes == a.writes { WithoutWrites(a, m, unused, pairs); }
  }

  /** What a run does to a lone unwanted deployment, when the requests up to its deletion are served in
      peace. */
  ghost predicate LoneRun(pools: seq<StoragePool>, a: View, b: View, v: JobView, w: JobView, pairs: set<Pair>,
                          from: Sky, n: nat, steady: set<string>, ok: bool) {
    forall k | Lone(a, pairs, k) && Smooth(from, n) ::
      && k in a.deployments
      && Deletion(pools, k, a.deployments[k], a.deployments, b.deployments, v, w, from.events[n..], steady, ok)
      && b.claims == a.claims && b.classes == a.classes
  }

  lemma NoLoneRun(pools: seq<StoragePool>, a: View, b: View, v: JobView, w: JobView, pairs: set<Pair>, from: Sky,
                  n: nat, steady: set<string>, ok: bool)
    requires !Peaceful(a, from, n, pairs)
    ensures LoneRun(pools, a, b, v, w, pairs, from, n, steady, ok)
  {
    hide Settled, Smooth, Deletion, Lone;
    LoneIsUnused(a, pairs);
  }

  lemma LoneRunThrough(pools: seq<StoragePool>, a: View, m: View, b: View, v: JobView, w: JobView, z: JobView,
                       pairs: set<Pair>, unused: map<string, Deployment>, from: Sky, mid: Sky, to: Sky, n: nat,
                       ok: bool)
    requires Progress(a, m, pairs) && AllCreated(a, m, pairs, unused)
    requires v.finished == from.finished && w == v.(finished := mid.finished)
             && (Peaceful(a, from, n, pairs) ==> Skipped(from, mid, n))
    requires Cleared(pools, unused, m, b, w, z, mid, to, ok)
    ensures LoneRun(pools, a, b, v, z, pairs, from, n, to.steady, ok)
  {
    hide Settled, Smooth, Deletion, Lone, Progress, CleanedUp, MadeForDeleted, OneLost, Present, Classed, UpToDate,
      NamesOf, Managed;
    LoneIsUnused(a, pairs);
    SettledStays(a, m, pairs);
  }

  /** A state at rest but for one deployment that nobody wants. */
  ghost predicate Lone(v: View, pairs: set<Pair>, k: string) {
    Owns(v.deployments, k) && AtRest(v.(deployments := v.deployments - {k}), pairs)
  }

  lemma LoneIsUnused(v: View, pairs: set<Pair>)
    ensures forall k | Lone(v, pairs, k) ::
              Settled(v.deployments, v.claims, v.classes, pairs)
              && (ManagedOf(v.deployments) - NamesOf(pairs)).Keys == {k}
  {
    hide Desired, NameOf, ClaimOf, ClassName, Refreshed, Managed;
    forall k | Lone(v, pairs, k)
      ensures Settled(v.deployments, v.claims, v.classes, pairs)
              && (ManagedOf(v.deployments) - NamesOf(pairs)).Keys == {k}
    {
      forall j | j in ManagedOf(v.deployments) && j !in NamesOf(pairs) ensures j == k {
        assert j != k ==> Owns(v.deployments - {k}, j);
      }
      assert k !in NamesOf(pairs);
    }
  }

  lemma SettledStays(a: View, m: View, pairs: set<Pair>)
    requires Progress(a, m, pairs)
    ensures Settled(a.deployments, a.claims, a.classes, pairs) ==> m == a
  {
  }

  lemma NoneLost(pools: seq<StoragePool>, a: View, m: View, pairs: set<Pair>, v: JobView, steady: set<string>,
                 obliging: bool)
    requires Progress(a, m, pairs)
    ensures OneLost(pools, a.deployments, a.deployments, m.deployments, v, steady, obliging)
  {
  }

  lemma LostOfAll(pools: seq<StoragePool>, unused: map<string, Deployment>, a: View, m: View, pairs: set<Pair>,
                  b: map<string, Deployment>, v: JobView, steady: set<string>, obliging: bool, still: bool)
    requires OneLost(pools, unused, m.deployments, b, v, steady, still) && (obliging ==> still)
    requires Progress(a, m, pairs) && Kept(unused, a.deployments) && m.deployments.Keys - b.Keys <= unused.Keys
    ensures OneLost(pools, a.deployments, a.deployments, b, v, steady, obliging)
  {
    hide CleanedUp;
    forall k | k in a.deployments && k !in b
      ensures k in unused
      ensures CleanedUp(pools, k, unused[k], v, steady, still) ==>
                CleanedUp(pools, k, a.deployments[k], v, steady, obliging)
    {
      assert k in m.deployments.Keys - b.Keys;
      if CleanedUp(pools, k, unused[k], v, steady, still) {
        CleanedUpWeaker(pools, k, unused[k], v, steady, obliging, still);
      }
    }
  }

  lemma WritesGrow(a: View, b: View, pairs: set<Pair>)
    requires Progress(a, b, pairs)
    ensures a.writes <= b.writes
  {
  }

  /** A run that completed without any write started at rest. */
  lemma WithoutWrites(a: View, m: View, unused: map<string, Deployment>, pairs: set<Pair>)
    requires Progress(a, m, pairs) && m.writes == a.writes && Present(m, pairs, pairs) && Classed(m, pairs)
             && UpToDate(m.deployments, pairs)
    requires unused == ManagedOf(a.deployments) - NamesOf(pairs) && unused == map[]
    ensures AtRest(a, pairs)
  {
    forall k | Owns(a.deployments, k) ensures k in NamesOf(pairs) {
      assert k in unused <==> k in ManagedOf(a.deployments) && k !in NamesOf(pairs);
    }
  }

  /** The creating loops. */
  method CreateAll(r: Client, spec: Spec, nodes: seq<string>, current: WorkingSet, ghost pairs: set<Pair>)
    returns (err: Option<Error>)
    requires pairs == WantedPairs(spec, set n | n in nodes)
    requires current.items.Keys <= r.deployments.Keys
    modifies r`sky, r`deployments, r`claims, r`classes, r`writes, current
    ensures Quiet(old(r.sky), r.sky, r.jobs)
    ensures Stage(old(PointOf(r, current)), PointOf(r, current), pairs, pairs, SpecRequests(spec.storagePools, |nodes|),
                  err.None?)
    ensures err.None? ==> Classed(ViewOf(r), pairs)
  {
    hide Stage, Quiet, Uids, Obliging, NamesOf, PairsOf, PairsBehind, WantedPairs, Classed, SpecRequests, PoolRequests;
    ghost var a, n := PointOf(r, current), SpecRequests(spec.storagePools, |nodes|);
    AllPairs(spec, nodes);
    NoStage(a, pairs);
    QuietHere(r.sky, r.jobs);
    for i := 0 to |spec.storagePools|
      invariant Quiet(old(r.sky), r.sky, r.jobs)
      invariant current.items.Keys <= r.deployments.Keys
      invariant SpecRequests(spec.storagePools[i..], |nodes|) <= n
                && Classed(ViewOf(r), PairsBehind(spec.storagePools, i, nodes))
      invariant Stage(a, PointOf(r, current), PairsBehind(spec.storagePools, i, nodes), pairs,
                      n - SpecRequests(spec.storagePools[i..], |nodes|), true)
    {
      ghost var done, behind := n - SpecRequests(spec.storagePools[i..], |nodes|),
                                PairsBehind(spec.storagePools, i, nodes);
      PairsPassed(spec.storagePools, i, nodes);
      if spec.storagePools[i].template.Some? {
        ghost var b, all, step := PointOf(r, current), PairsOf(spec.storagePools[i], nodes),
                                  PoolRequests(spec.storagePools[i], |nodes|);
        err := ReconcilePool(r, spec.storagePools[i], nodes, current, pairs);
        ghost var c := PointOf(r, current);
        StageKeepsKeys(b, c, all, pairs, step, err.None?);
        QuietTransitive(a.sky, b.sky, c.sky, r.jobs);
        if err.Some? {
          StageFailed(a, b, c, behind, all, pairs, pairs, done, step, n);
          return;
        }
        StageThen(a, b, c, behind, all, pairs, done, step);
      }
    }
    err := None;
  }

  /** The pairs of the pools the outer loop has passed. */
  ghost function PairsBehind(pools: seq<StoragePool>, i: nat, nodes: seq<string>): set<Pair>
    requires i <= |pools|
  {
    set p, n | p in pools[..i] && p.template.Some? && n in nodes :: Pair(p, n)
  }

  lemma PairsPassed(pools: seq<StoragePool>, i: nat, nodes: seq<string>)
    requires i < |pools|
    ensures pools[i].template.None? ==> PairsBehind(pools, i + 1, nodes) == PairsBehind(pools, i, nodes)
    ensures pools[i].template.Some? ==>
              && PairsBehind(pools, i + 1, nodes) == PairsBehind(pools, i, nodes) + PairsOf(pools[i], nodes)
              && PairsOf(pools[i], nodes) <= PairsBehind(pools, |pools|, nodes)
    ensures SpecRequests(pools[i..], |nodes|) ==
            (if pools[i].template.Some? then PoolRequests(pools[i], |nodes|)
             else 0) + SpecRequests(pools[i + 1..], |nodes|)
  {
    assert pools[i..][1..] == pools[i + 1..] && pools[i..][0] == pools[i];
    assert pools[..i + 1] == pools[..i] + [pools[i]] && pools[..|pools|] == pools;
  }

  lemma AllPairs(spec: Spec, nodes: seq<string>)
    ensures PairsBehind(spec.storagePools, |spec.storagePools|, nodes) == WantedPairs(spec, set n | n in nodes)
    ensures SpecRequests(spec.storagePools[|spec.storagePools|..], |nodes|) == 0
    ensures PairsBehind(spec.storagePools, 0, nodes) == {} && spec.storagePools[0..] == spec.storagePools
  {
    assert spec.storagePools[..|spec.storagePools|] == spec.storagePools;
  }

  /** Two runs, from a state at rest but for one deployment that nobody wants, with the requests up to
      its deletion served in peace. When the deletion is refused, the first run changes nothing. Else the
      deployment is gone and the state at rest, so the second run does nothing; and if the node stays,
      a job that had not completed before is there exactly when the events do not lose it. */
  method LostUnmount(r: Client, spec: Spec, k: string)
    returns (first: Option<Error>, second: Option<Error>, ghost between: View, ghost left: JobView,
             ghost steady: set<string>)
    requires WellLogged(JobsOf(r)) && r.sky.steady <= r.sky.nodes && UsedNodes(r.daemonSets, r.pods) <= r.sky.nodes
    requires Lone(ViewOf(r), WantedPairs(spec, UsedNodes(r.daemonSets, r.pods)), k)
             && PoolByPrefix(spec.storagePools, k).Some?
    requires Smooth(r.sky, CreateRequests(spec, r.daemonSets, r.pods))
    modifies r`sky, r`jobs, r`writes, r`nextUid, r`log, r`refused, r`deployments, r`claims, r`classes
    ensures var rest, d := old(r.sky.events)[CreateRequests(spec, r.daemonSets, r.pods)..], old(r.deployments)[k];
            var job := JobName(PoolByPrefix(spec.storagePools, k).value.name, d.spec.node);
            if FaultAt(rest, 0).Refused? then
              && first.Some? && between == old(ViewOf(r)).(writes := between.writes)
              && left == old(JobsOf(r)).(finished := left.finished)
            else
              && (first.Some? <==> CutShort(rest)) && k !in r.deployments && ViewOf(r) == between
              && AtRest(ViewOf(r), WantedPairs(spec, UsedNodes(r.daemonSets, r.pods)))
              && (Loses(old(JobsOf(r)), job, rest) ==> !JobSince(old(JobsOf(r)), JobsOf(r), job))
              && (!Loses(old(JobsOf(r)), job, rest) && d.spec.node in steady ==>
                    JobSince(old(JobsOf(r)), JobsOf(r), job))
    ensures r.sky.steady <= steady <= old(r.sky.steady)
  {
    hide JobsAdvance, WellLogged, JobFor, MadeForDeleted, NoGroundLost, Settled, JobName, PoolByPrefix, Managed,
      CreateRequests, Loses, OneLost, Owns, NamesOf, Uids, Obliging, WantedPairs, UsedNodes, Converged, AtRest,
      CleanedUp, Lone, Deletion, JobSince, DashedRefused;
    ghost var v, a, pairs := JobsOf(r), ViewOf(r), WantedPairs(spec, UsedNodes(r.daemonSets, r.pods));
    ghost var rest := r.sky.events[CreateRequests(spec, r.daemonSets, r.pods)..];
    first := ReconcileStoragePools(r, spec);
    left, between, steady := JobsOf(r), ViewOf(r), r.sky.steady;
    AdvanceKeepsRecord(v, left);
    AfterDeletion(spec.storagePools, a, between, pairs, k, v, left, rest, steady, first.None?);
    second := ReconcileStoragePools(r, spec);
    if !FaultAt(rest, 0).Refused? {
      LostForGood(spec.storagePools, a, between, k, v, left, JobsOf(r), rest, steady, first.None?);
    }
  }

  lemma AfterDeletion(pools: seq<StoragePool>, a: View, m: View, pairs: set<Pair>, k: string, v: JobView, w: JobView,
                      events: seq<Event>, steady: set<string>, ok: bool)
    requires Lone(a, pairs, k) && m == a.(deployments := m.deployments, writes := m.writes)
    requires Deletion(pools, k, a.deployments[k], a.deployments, m.deployments, v, w, events, steady, ok)
    ensures FaultAt(events, 0).Refused? ==>
              !ok && m == a.(writes := m.writes) && w == v.(finished := w.finished)
    ensures !FaultAt(events, 0).Refused? ==> k !in m.deployments && AtRest(m, pairs)
    ensures !FaultAt(events, 0).Refused? && PoolByPrefix(pools, k).Some? ==> (!ok <==> CutShort(events))
  {
    hide Desired, NameOf, Refreshed, Managed, PoolByPrefix, Loses;
  }

  /** Whether the job is there is settled by the run that deletes the deployment. */
  lemma LostForGood(pools: seq<StoragePool>, a: View, m: View, k: string, v: JobView, w: JobView, z: JobView,
                    events: seq<Event>, steady: set<string>, ok: bool)
    requires k in a.deployments && PoolByPrefix(pools, k).Some? && !FaultAt(events, 0).Refused? && WellLogged(v)
    requires Deletion(pools, k, a.deployments[k], a.deployments, m.deployments, v, w, events, steady, ok)
    requires z == w.(finished := z.finished) && z.finished <= w.finished + Uids(w.jobs)
    ensures var job := JobName(PoolByPrefix(pools, k).value.name, a.deployments[k].spec.node);
            && (Loses(v, job, events) ==> !JobSince(v, z, job))
            && (!Loses(v, job, events) && a.deployments[k].spec.node in steady ==> JobSince(v, z, job))
  {
    hide JobName, PoolByPrefix, CutShort;
    var job := JobName(PoolByPrefix(pools, k).value.name, a.deployments[k].spec.node);
    if Loses(v, job, events) {
      forall uid | uid in z.finished && uid !in v.finished && uid in z.log ensures z.log[uid].name != job {
        var j :| j in v.jobs && v.jobs[j].uid == uid;
      }
    }
  }
}
