// The daemon sets of the legacy provisioner and the CSI driver (daemonset.go).

module DaemonSets {
  import opened CustomResource
  import opened Cluster
  import opened StoragePools

  const SELECTOR := map["k8s-app" := APP]

  // ------------------------------------------------------------------- desired daemon sets

  function PoolArgs(pools: seq<StoragePool>): (r: seq<PoolArg>)
    ensures |r| == |pools|
  {
    seq(|pools|, i requires 0 <= i < |pools| =>
      PoolArg(pools[i].name, pools[i].path, pools[i].snapshotProvider,
              pools[i].template.Some? && IsShared(pools[i].template.value)))
  }

  /** The legacy daemon set; the uid is up to the API server. */
  function LegacyDaemonSet(owner: string, spec: Spec): DaemonSet {
    var path := if IsLegacy(spec) then spec.pathConfig.value.path else "";
    var prefix := IsLegacy(spec) && spec.pathConfig.value.useNamingPrefix;
    DaemonSet({owner}, RecommendedLabels()["np.kubevirt.io/allow-access-cluster-services" := "true"], SELECTOR,
              LEGACY_ACCOUNT,
              PodTemplate(path, prefix, [], spec.workload, false), "", 0)
  }

  function CsiDaemonSet(owner: string, spec: Spec): DaemonSet {
    var pools := if IsLegacy(spec) then [PoolArg("", spec.pathConfig.value.path, None, false)]
                 else PoolArgs(spec.storagePools);
    DaemonSet({owner}, RecommendedLabels()["prometheus.hostpathprovisioner.kubevirt.io" := "true"], SELECTOR,
              CSI_ACCOUNT,
              PodTemplate("", false, pools, spec.workload, Snapshotting(spec)), "", 0)
  }

  /** A daemon set of an earlier version, whose selector no update can correct. */
  predicate Junk(d: DaemonSet) {
    d.selector != SELECTOR
  }

  predicate JunkAt(m: map<string, DaemonSet>, name: string) {
    name in m && Junk(m[name])
  }

  /** A found daemon set after an update: it keeps its owners, its uid and its scheduler. */
  function Renewed(found: DaemonSet, desired: DaemonSet): DaemonSet {
    found.(labels := found.labels + desired.labels, serviceAccount := desired.serviceAccount,
    template := desired.template)
  }

  /** Created, deleted for its selector, or updated. */
  function Renewal(m: map<string, DaemonSet>, name: string, desired: DaemonSet, uid: nat): map<string, DaemonSet> {
    if name !in m then m[name := desired.(uid := uid)]
    else if Junk(m[name]) then m - {name}
    else m[name := Renewed(m[name], desired)]
  }

  ghost predicate Current(m: map<string, DaemonSet>, name: string, desired: DaemonSet) {
    name in m && !Junk(m[name]) && Renewed(m[name], desired) == m[name]
  }

  // ------------------------------------------------------------------ what up to date means



  /** The labels of both daemon sets. */
  predicate Badged(labels: map<string, string>) {
    && Bears(labels, "k8s-app", "hostpath-provisioner")
    && Bears(labels, "app.kubernetes.io/managed-by", "hostpath-provisioner-operator")
    && Bears(labels, "app.kubernetes.io/component", "storage")
  }

  /** The CSI driver mounts one directory in legacy mode, and otherwise that of each pool, in order, under its
      name, with its snapshot provider, and as shared if the claim template says ReadWriteMany. */
  predicate DrivesPools(t: PodTemplate, spec: Spec) {
    if spec.pathConfig.Some? then t.pools == [PoolArg("", spec.pathConfig.value.path, None, false)]
    else
      && |t.pools| == |spec.storagePools|
      && forall i | 0 <= i < |t.pools| ::
           var x, p := t.pools[i], spec.storagePools[i];
           && x.name == p.name && x.path == p.path && x.snapshotProvider == p.snapshotProvider
           && (x.shared <==> p.template.Some? && ReadWriteMany in p.template.value.accessModes)
  }

  predicate CsiServes(d: DaemonSet, spec: Spec) {
    && d.selector == map["k8s-app" := "hostpath-provisioner"] && d.serviceAccount == "hostpath-provisioner-admin-csi"
    && Badged(d.labels) && Bears(d.labels, "prometheus.hostpathprovisioner.kubevirt.io", "true")
    && DrivesPools(d.template, spec) && d.template.workload == spec.workload
    && (d.template.snapshots <==> "Snapshotting" in spec.featureGates) && d.template.path == "" && !d.template.prefix
  }

  predicate LegacyServes(d: DaemonSet, spec: Spec, config: PathConfig) {
    && d.selector == map["k8s-app" := "hostpath-provisioner"] && d.serviceAccount == "hostpath-provisioner-admin"
    && Badged(d.labels) && Bears(d.labels, "np.kubevirt.io/allow-access-cluster-services", "true")
    && d.template == PodTemplate(config.path, config.useNamingPrefix, [], spec.workload, false)
  }

  lemma CsiCurrent(m: map<string, DaemonSet>, owner: string, spec: Spec)
    ensures Current(m, CSI_DAEMON_SET, CsiDaemonSet(owner, spec)) <==>
            CSI_DAEMON_SET in m && CsiServes(m[CSI_DAEMON_SET], spec)
  {
    if CSI_DAEMON_SET in m {
      var d, want := m[CSI_DAEMON_SET], CsiDaemonSet(owner, spec);
      LabelsLaidOver(d.labels, want.labels);
      if DrivesPools(d.template, spec) { assert d.template.pools == want.template.pools; }
    }
  }

  lemma LegacyCurrent(m: map<string, DaemonSet>, owner: string, spec: Spec)
    requires spec.pathConfig.Some?
    ensures Current(m, APP, LegacyDaemonSet(owner, spec)) <==>
            APP in m && LegacyServes(m[APP], spec, spec.pathConfig.value)
  {
    if APP in m { LabelsLaidOver(m[APP].labels, LegacyDaemonSet(owner, spec).labels); }
  }

  lemma LabelsLaidOver(found: map<string, string>, own: map<string, string>)
    ensures found + own == found <==> forall k | k in own :: Bears(found, k, own[k])
  {
    if found + own == found { forall k | k in own ensures Bears(found, k, own[k]) { assert k in found + own; } }
  }

  /** What a completed pass leaves, written out: a CSI daemon set that serves the spec, the legacy one in
      legacy mode alone, and nothing that an earlier version named after the custom resource. */
  lemma UpToDateMeans(m: map<string, DaemonSet>, owner: string, spec: Spec)
    ensures AllCurrent(m, owner, spec) <==>
            && CSI_DAEMON_SET in m && CsiServes(m[CSI_DAEMON_SET], spec)
            && (match spec.pathConfig
                case None => APP !in m
                case Some(config) => APP in m && LegacyServes(m[APP], spec, config))
            && forall k | k in m && k != APP && k != CSI_DAEMON_SET && owner in m[k].owners ::
                 !Bears(m[k].labels, "k8s-app", "hostpath-provisioner") && !Bears(m[k].labels, "k8s-app", owner)
  {
    hide Current, CsiServes, LegacyServes;
    CsiCurrent(m, owner, spec);
    if spec.pathConfig.Some? { LegacyCurrent(m, owner, spec); }
    forall k | k in m && k != APP && k != CSI_DAEMON_SET && owner in m[k].owners
      ensures k in Duplicates(m, owner) <==>
              Bears(m[k].labels, "k8s-app", "hostpath-provisioner") || Bears(m[k].labels, "k8s-app", owner) { }
  }

  /** What a found daemon set keeps through an update, and what a new one starts with. */
  lemma UpdateKeeps(found: DaemonSet, desired: DaemonSet, owner: string, spec: Spec, k: string)
    ensures var d := Renewed(found, desired);
            && d.owners == found.owners && d.uid == found.uid && d.scheduler == found.scheduler
            && d.selector == found.selector
            && (k in found.labels && k !in desired.labels ==> Bears(d.labels, k, found.labels[k]))
            && (k in d.labels ==> k in found.labels || k in desired.labels)
    ensures CsiDaemonSet(owner, spec).owners == LegacyDaemonSet(owner, spec).owners == {owner}
  {
  }

  // ---------------------------------------------------------------------------- requests

  /** A new or deleted daemon set has no pods yet or any more. */
  method Forget(r: Client, name: string)
    modifies r`sky
    ensures Passed(old(r.sky), r.sky, r.jobs)
    ensures r.sky == old(r.sky).(readiness := r.sky.readiness)
  {
    r.sky := r.sky.(readiness := r.sky.readiness - {name});
  }

  method DeleteDaemonSet(r: Client, name: string) returns (err: Option<Error>)
    modifies r`sky, r`daemonSets, r`writes
    ensures Passed(old(r.sky), r.sky, r.jobs)
    ensures r.daemonSets == old(r.daemonSets) || r.daemonSets == old(r.daemonSets) - {name}
    ensures err.None? ==> r.daemonSets == old(r.daemonSets) - {name}
    ensures name !in old(r.daemonSets) ==>
              r.daemonSets == old(r.daemonSets) && r.writes == old(r.writes) && Quiet(old(r.sky), r.sky, r.jobs)
    ensures old(r.sky.events) == [] ==> err.None?
  {
    var f := r.Tick();
    if name in r.daemonSets {
      r.writes := r.writes + 1;
      if !f.Refused? { Forget(r, name); }
    }
    var reply, daemonSets := Deleted(r.daemonSets, name, f).0, Deleted(r.daemonSets, name, f).1;
    r.daemonSets := daemonSets;
    err := if reply == Failed then Some(Request) else None;
  }

  method ReconcileDaemonSetForSa(r: Client, name: string, desired: DaemonSet) returns (err: Option<Error>)
    requires desired.selector == SELECTOR
    modifies r`sky, r`daemonSets, r`writes, r`nextUid
    ensures Passed(old(r.sky), r.sky, r.jobs) && old(r.nextUid) <= r.nextUid
    ensures r.daemonSets == old(r.daemonSets)
            || r.daemonSets == Renewal(old(r.daemonSets), name, desired, old(r.nextUid))
    ensures name !in old(r.daemonSets) && name in r.daemonSets ==> old(r.nextUid) < r.nextUid
    ensures err.None? ==> r.daemonSets == Renewal(old(r.daemonSets), name, desired, old(r.nextUid))
                          && !JunkAt(old(r.daemonSets), name)
    ensures Current(old(r.daemonSets), name, desired) ==>
              r.daemonSets == old(r.daemonSets) && r.writes == old(r.writes) && r.nextUid == old(r.nextUid)
              && Quiet(old(r.sky), r.sky, r.jobs)
    ensures old(r.sky.events) == [] ==>
              && r.daemonSets == Renewal(old(r.daemonSets), name, desired, old(r.nextUid))
              && (err.None? <==> !JunkAt(old(r.daemonSets), name))
  {
    hide Uids, Obliging;
    var f := r.Tick();
    var got := Got(r.daemonSets, name, f);
    if got == NotFound {
      f := r.Tick();
      r.writes := r.writes + 1;
      var reply, daemonSets := Created(r.daemonSets, name, desired.(uid := r.nextUid), f).0,
                               Created(r.daemonSets, name, desired.(uid := r.nextUid), f).1;
      r.daemonSets := daemonSets;
      r.nextUid := r.nextUid + 1;
      Forget(r, name);
      return if reply == Ok then None else Some(Request);
    }
    if got != Ok { return Some(Request); }
    var found := r.daemonSets[name];
    if Junk(found) {
      err := DeleteDaemonSet(r, name);
      return if err.Some? then err else Some(JunkSelector(name));
    }
    var renewed := Renewed(found, desired);
    if renewed != found {
      f := r.Tick();
      r.writes := r.writes + 1;
      var reply, daemonSets := Updated(r.daemonSets, name, renewed, f).0, Updated(r.daemonSets, name, renewed, f).1;
      r.daemonSets := daemonSets;
      return if reply == Ok then None else Some(Request);
    }
    assert r.daemonSets[name := found] == r.daemonSets;
    err := None;
  }

  ghost predicate SameAt(a: map<string, DaemonSet>, b: map<string, DaemonSet>, name: string) {
    (name in a <==> name in b) && (name in a ==> a[name] == b[name])
  }

  /** What may become of one of the two daemon sets: it stays as it was; it goes, if its selector is wrong or
    nobody wants it; or it is created or updated, keeping what a found one has. */
  ghost predicate Tended(a: map<string, DaemonSet>, b: map<string, DaemonSet>, name: string, desired: DaemonSet,
                         wanted: bool) {
    || SameAt(a, b, name)
    || (name in a && name !in b && (!wanted || Junk(a[name])))
    || (name in b && wanted
        && b[name] == if name in a then Renewed(a[name], desired) else desired.(uid := b[name].uid))
  }

  /** What a run may do to the daemon sets, finished or cut off anywhere: it tends the two, removes what
      earlier versions named after the custom resource, and leaves all others alone. */
  ghost predicate Tending(a: map<string, DaemonSet>, b: map<string, DaemonSet>, owner: string, spec: Spec) {
    && Tended(a, b, APP, LegacyDaemonSet(owner, spec), IsLegacy(spec))
    && Tended(a, b, CSI_DAEMON_SET, CsiDaemonSet(owner, spec), true)
    && forall k | k != APP && k != CSI_DAEMON_SET ::
         SameAt(a, b, k) || (k in Duplicates(a, owner) && k !in b)
  }

  /** Daemon sets of earlier versions, which were named after the custom resource. */
  function Duplicates(m: map<string, DaemonSet>, owner: string): set<string> {
    set k | k in m && "k8s-app" in m[k].labels && m[k].labels["k8s-app"] in {APP, owner} && k != APP
            && k != CSI_DAEMON_SET && owner in m[k].owners
  }

  method DeleteDuplicates(r: Client) returns (err: Option<Error>)
    modifies r`sky, r`daemonSets, r`writes
    ensures Passed(old(r.sky), r.sky, r.jobs)
    ensures Kept(r.daemonSets, old(r.daemonSets))
            && old(r.daemonSets).Keys - r.daemonSets.Keys <= Duplicates(old(r.daemonSets), r.name)
    ensures err.None? ==> r.daemonSets == old(r.daemonSets) - Duplicates(old(r.daemonSets), r.name)
    ensures Duplicates(old(r.daemonSets), r.name) == {} ==>
              r.daemonSets == old(r.daemonSets) && r.writes == old(r.writes) && Quiet(old(r.sky), r.sky, r.jobs)
    ensures old(r.sky.events) == [] ==> err.None?
  {
    hide Uids, Passed, Quiet, Duplicates;
    ghost var sky := r.sky;
    var f := r.Tick();
    QuietPasses(sky, r.sky, r.jobs);
    if ReadFails(f) { return Some(Request); }
    var all := Duplicates(r.daemonSets, r.name);
    var todo := all;
    while todo != {}
      invariant todo <= all == Duplicates(old(r.daemonSets), r.name)
      invariant r.daemonSets == old(r.daemonSets) - (all - todo)
      invariant Passed(old(r.sky), r.sky, r.jobs)
      invariant todo == all ==> r.writes == old(r.writes) && Quiet(old(r.sky), r.sky, r.jobs)
    {
      var k :| k in todo;
      ghost var mid := r.sky;
      err := DeleteDaemonSet(r, k);
      PassedTransitive(sky, mid, r.sky, r.jobs);
      if err.Some? { return; }
      todo := todo - {k};
      assert all - todo == (all - (todo + {k})) + {k};
    }
    err := None;
  }

  // --------------------------------------------------------------------------- the phase

  /** Everything about the daemon sets is as the spec wants it. */
  ghost predicate AllCurrent(m: map<string, DaemonSet>, owner: string, spec: Spec) {
    Duplicates(m, owner) == {} && HalvesCurrent(m, owner, spec)
  }

  ghost predicate HalvesCurrent(m: map<string, DaemonSet>, owner: string, spec: Spec) {
    && (if IsLegacy(spec) then Current(m, APP, LegacyDaemonSet(owner, spec)) else APP !in m)
    && Current(m, CSI_DAEMON_SET, CsiDaemonSet(owner, spec))
  }

  /** How many wanted daemon sets are in the way of their own update. */
  ghost function JunkCount(m: map<string, DaemonSet>, spec: Spec): nat {
    (if IsLegacy(spec) && JunkAt(m, APP) then 1 else 0) + (if JunkAt(m, CSI_DAEMON_SET) then 1 else 0)
  }

  /** The CSI daemon set is the one there was, or got a fresh uid. */
  ghost predicate Identified(a: map<string, DaemonSet>, b: map<string, DaemonSet>, from: nat, to: nat) {
    from <= to &&
    (CSI_DAEMON_SET in b ==>
       || (CSI_DAEMON_SET in a && b[CSI_DAEMON_SET].uid == a[CSI_DAEMON_SET].uid)
       || from <= b[CSI_DAEMON_SET].uid < to)
  }

  lemma RenewedIsCurrent(m: map<string, DaemonSet>, name: string, desired: DaemonSet, uid: nat)
    requires !JunkAt(m, name) && desired.selector == SELECTOR
    ensures Current(Renewal(m, name, desired, uid), name, desired)
  {
    var d := Renewal(m, name, desired, uid)[name];
    if name in m { assert m[name].labels + desired.labels + desired.labels == m[name].labels + desired.labels; }
    assert d.labels + desired.labels == d.labels;
  }

  /** The legacy half: created, updated or deleted for its selector in legacy mode, deleted
      otherwise. */
  method ReconcileLegacyDaemonSet(r: Client, spec: Spec) returns (err: Option<Error>)
    modifies r`sky, r`daemonSets, r`writes, r`nextUid
    ensures Passed(old(r.sky), r.sky, r.jobs) && old(r.nextUid) <= r.nextUid
    ensures forall k | k != APP :: SameAt(old(r.daemonSets), r.daemonSets, k)
    ensures Tended(old(r.daemonSets), r.daemonSets, APP, LegacyDaemonSet(r.name, spec), IsLegacy(spec))
    ensures JunkAt(r.daemonSets, APP) ==> JunkAt(old(r.daemonSets), APP)
    ensures err.None? && IsLegacy(spec) ==>
              Current(r.daemonSets, APP, LegacyDaemonSet(r.name, spec)) && !JunkAt(old(r.daemonSets), APP)
    ensures err.None? && !IsLegacy(spec) ==> APP !in r.daemonSets
    ensures HalvesCurrent(old(r.daemonSets), r.name, spec) ==>
              r.daemonSets == old(r.daemonSets) && r.writes == old(r.writes) && r.nextUid == old(r.nextUid)
              && Quiet(old(r.sky), r.sky, r.jobs)
    ensures old(r.sky.events) == [] ==>
              && (err.None? <==> !(IsLegacy(spec) && JunkAt(old(r.daemonSets), APP)))
              && (err.Some? ==> !JunkAt(r.daemonSets, APP))
  {
    hide Uids, Obliging;
    if IsLegacy(spec) {
      err := ReconcileDaemonSetForSa(r, APP, LegacyDaemonSet(r.name, spec));
      if err.None? { RenewedIsCurrent(old(r.daemonSets), APP, LegacyDaemonSet(r.name, spec), old(r.nextUid)); }
    } else {
      err := DeleteDaemonSet(r, APP);
    }
  }

  /** The CSI half. */
  method ReconcileCsiDaemonSet(r: Client, spec: Spec) returns (err: Option<Error>)
    modifies r`sky, r`daemonSets, r`writes, r`nextUid
    ensures Passed(old(r.sky), r.sky, r.jobs) && Identified(old(r.daemonSets), r.daemonSets, old(r.nextUid), r.nextUid)
    ensures err.None? && CSI_DAEMON_SET in old(r.daemonSets) ==> SameCsi(old(r.daemonSets), r.daemonSets)
    ensures forall k | k != CSI_DAEMON_SET :: SameAt(old(r.daemonSets), r.daemonSets, k)
    ensures Tended(old(r.daemonSets), r.daemonSets, CSI_DAEMON_SET, CsiDaemonSet(r.name, spec), true)
    ensures JunkAt(r.daemonSets, CSI_DAEMON_SET) ==> JunkAt(old(r.daemonSets), CSI_DAEMON_SET)
    ensures err.None? ==> Current(r.daemonSets, CSI_DAEMON_SET, CsiDaemonSet(r.name, spec))
                          && !JunkAt(old(r.daemonSets), CSI_DAEMON_SET)
    ensures Current(old(r.daemonSets), CSI_DAEMON_SET, CsiDaemonSet(r.name, spec)) ==>
              r.daemonSets == old(r.daemonSets) && r.writes == old(r.writes) && r.nextUid == old(r.nextUid)
              && Quiet(old(r.sky), r.sky, r.jobs)
    ensures old(r.sky.events) == [] ==>
              (err.None? <==> !JunkAt(old(r.daemonSets), CSI_DAEMON_SET))
              && (err.Some? ==> !JunkAt(r.daemonSets, CSI_DAEMON_SET))
  {
    hide Uids, Obliging;
    err := ReconcileDaemonSetForSa(r, CSI_DAEMON_SET, CsiDaemonSet(r.name, spec));
    if err.None? { RenewedIsCurrent(old(r.daemonSets), CSI_DAEMON_SET, CsiDaemonSet(r.name, spec), old(r.nextUid)); }
  }

  /** Both halves. */
  method ReconcileBoth(r: Client, spec: Spec) returns (err: Option<Error>)
    modifies r`sky, r`daemonSets, r`writes, r`nextUid
    ensures Passed(old(r.sky), r.sky, r.jobs)
    ensures Identified(old(r.daemonSets), r.daemonSets, old(r.nextUid), r.nextUid)
    ensures err.None? && CSI_DAEMON_SET in old(r.daemonSets) ==> SameCsi(old(r.daemonSets), r.daemonSets)
    ensures forall k | k != APP && k != CSI_DAEMON_SET :: SameAt(old(r.daemonSets), r.daemonSets, k)
    ensures Tended(old(r.daemonSets), r.daemonSets, APP, LegacyDaemonSet(r.name, spec), IsLegacy(spec))
    ensures Tended(old(r.daemonSets), r.daemonSets, CSI_DAEMON_SET, CsiDaemonSet(r.name, spec), true)
    ensures JunkCount(r.daemonSets, spec) <= JunkCount(old(r.daemonSets), spec)
    ensures err.None? ==> HalvesCurrent(r.daemonSets, r.name, spec)
    ensures HalvesCurrent(old(r.daemonSets), r.name, spec) ==>
              r.daemonSets == old(r.daemonSets) && r.writes == old(r.writes) && r.nextUid == old(r.nextUid)
              && Quiet(old(r.sky), r.sky, r.jobs)
    ensures old(r.sky.events) == [] ==>
              && (err.None? <==> JunkCount(old(r.daemonSets), spec) == 0)
              && (err.Some? ==> JunkCount(r.daemonSets, spec) < JunkCount(old(r.daemonSets), spec))
  {
    hide Uids, Obliging, LegacyDaemonSet, CsiDaemonSet, Current, JunkAt, Passed;
    ghost var sky := r.sky;
    err := ReconcileLegacyDaemonSet(r, spec);
    ghost var c, sky2 := r.daemonSets, r.sky;
    assert SameAt(old(r.daemonSets), c, CSI_DAEMON_SET);
    SameHere(old(r.daemonSets), c, CSI_DAEMON_SET, CsiDaemonSet(r.name, spec));
    PassedTransitive(sky, sky, sky2, r.jobs);
    if err.Some? { return; }
    err := ReconcileCsiDaemonSet(r, spec);
    PassedTransitive(sky, sky2, r.sky, r.jobs);
    assert SameAt(c, r.daemonSets, APP);
    forall k | k != APP && k != CSI_DAEMON_SET ensures SameAt(old(r.daemonSets), r.daemonSets, k) {
      assert SameAt(old(r.daemonSets), c, k) && SameAt(c, r.daemonSets, k);
    }
    SameHere(c, r.daemonSets, APP, LegacyDaemonSet(r.name, spec));
  }

  /** Removes what earlier versions left, then brings both daemon sets up to date. */
  method ReconcileDaemonSets(r: Client, spec: Spec) returns (err: Option<Error>)
    modifies r`sky, r`daemonSets, r`writes, r`nextUid
    ensures Passed(old(r.sky), r.sky, r.jobs)
    ensures Identified(old(r.daemonSets), r.daemonSets, old(r.nextUid), r.nextUid)
    ensures err.None? && CSI_DAEMON_SET in old(r.daemonSets) ==> SameCsi(old(r.daemonSets), r.daemonSets)
    ensures Tending(old(r.daemonSets), r.daemonSets, r.name, spec)
    ensures JunkCount(r.daemonSets, spec) <= JunkCount(old(r.daemonSets), spec)
    ensures err.None? ==> AllCurrent(r.daemonSets, r.name, spec)
    ensures AllCurrent(old(r.daemonSets), r.name, spec) ==>
              r.daemonSets == old(r.daemonSets) && r.writes == old(r.writes) && r.nextUid == old(r.nextUid)
              && Quiet(old(r.sky), r.sky, r.jobs)
    ensures old(r.sky.events) == [] ==>
              && (err.None? <==> JunkCount(old(r.daemonSets), spec) == 0)
              && (err.Some? ==> JunkCount(r.daemonSets, spec) < JunkCount(old(r.daemonSets), spec))
  {
    hide Uids, Obliging, HalvesCurrent, JunkAt, Passed;
    ghost var sky := r.sky;
    err := DeleteDuplicates(r);
    ghost var b, sky2 := r.daemonSets, r.sky;
    DuplicatesSpare(old(r.daemonSets), b, r.name);
    SameHere(old(r.daemonSets), b, APP, LegacyDaemonSet(r.name, spec));
    SameHere(old(r.daemonSets), b, CSI_DAEMON_SET, CsiDaemonSet(r.name, spec));
    PassedTransitive(sky, sky, sky2, r.jobs);
    TendingThrough(old(r.daemonSets), b, b, r.name, spec);
    if err.Some? { return; }
    err := ReconcileBoth(r, spec);
    PassedTransitive(sky, sky2, r.sky, r.jobs);
    TendingThrough(old(r.daemonSets), b, r.daemonSets, r.name, spec);
    NoNewDuplicates(b, r.daemonSets, r.name);
  }

  lemma TendingThrough(a: map<string, DaemonSet>, b: map<string, DaemonSet>, c: map<string, DaemonSet>, owner: string,
                       spec: Spec)
    requires Kept(b, a) && a.Keys - b.Keys <= Duplicates(a, owner)
    requires Tended(b, c, APP, LegacyDaemonSet(owner, spec), IsLegacy(spec))
    requires Tended(b, c, CSI_DAEMON_SET, CsiDaemonSet(owner, spec), true)
    requires forall k | k != APP && k != CSI_DAEMON_SET :: SameAt(b, c, k)
    ensures Tending(a, c, owner, spec)
  {
    hide LegacyDaemonSet, CsiDaemonSet, Renewed, Junk;
    DuplicatesSpare(a, b, owner);
    forall k | k != APP && k != CSI_DAEMON_SET ensures SameAt(a, c, k) || (k in Duplicates(a, owner) && k !in c) {
      assert SameAt(b, c, k);
      if k in a && k !in b { assert k in a.Keys - b.Keys; }
    }
  }

  lemma DuplicatesSpare(a: map<string, DaemonSet>, b: map<string, DaemonSet>, owner: string)
    requires Kept(b, a) && a.Keys - b.Keys <= Duplicates(a, owner)
    ensures SameAt(a, b, APP) && SameAt(a, b, CSI_DAEMON_SET)
  {
    assert forall k | k in a && k !in b :: k in a.Keys - b.Keys;
  }

  lemma NoNewDuplicates(a: map<string, DaemonSet>, b: map<string, DaemonSet>, owner: string)
    requires Duplicates(a, owner) == {} && forall k | k != APP && k != CSI_DAEMON_SET :: SameAt(a, b, k)
    ensures Duplicates(b, owner) == {}
  {
    forall k ensures k !in Duplicates(b, owner) {
      assert k !in Duplicates(a, owner);
      if k != APP && k != CSI_DAEMON_SET { assert SameAt(a, b, k); }
    }
  }

  lemma SameHere(a: map<string, DaemonSet>, b: map<string, DaemonSet>, name: string, desired: DaemonSet)
    requires SameAt(a, b, name)
    ensures Current(a, name, desired) <==> Current(b, name, desired)
    ensures JunkAt(a, name) <==> JunkAt(b, name)
  {
  }

  /** Nodes with live CSI pods exist, and no pod has an owner that is still to come. */
  ghost predicate Housed(daemonSets: map<string, DaemonSet>, pods: map<string, Pod>, nodes: set<string>, nextUid: nat) {
    UsedNodes(daemonSets, pods) <= nodes && forall p | p in pods :: pods[p].owner < nextUid
  }

  /** Both have the CSI daemon set, under one uid. */
  predicate SameCsi(a: map<string, DaemonSet>, b: map<string, DaemonSet>) {
    CSI_DAEMON_SET in a && CSI_DAEMON_SET in b && b[CSI_DAEMON_SET].uid == a[CSI_DAEMON_SET].uid
  }

  /** A recreated daemon set has no pods yet, so no node is in use any more; the same one keeps its
      nodes. */
  lemma StillHoused(a: map<string, DaemonSet>, b: map<string, DaemonSet>, pods: map<string, Pod>, nodes: set<string>,
                    from: nat, to: nat)
    requires Housed(a, pods, nodes, from) && Identified(a, b, from, to)
    ensures Housed(b, pods, nodes, to)
    ensures UsedNodes(b, pods) == if SameCsi(a, b) then UsedNodes(a, pods) else {}
  {
  }
}
