// The objects kept as JSON trees: roles, bindings, the CSI driver, security context constraints
// and the monitoring objects (rbac.go, csidriver.go, scc.go, prometheus.go). Each is created when
// missing and repaired when drifted, or deleted when the mode of operation does not call for it.

module Objects {
  import opened CustomResource
  import opened Json
  import opened Cluster
  import opened Drift
  import DriftProofs

  const DRIVER := "kubevirt.io.hostpath-provisioner"
  const CSI_CONSTRAINTS := "hostpath-provisioner-csi"
  const RULES := "prometheus-hpp-rules"
  const MONITORING := "hostpath-provisioner-monitoring"
  const MONITOR := "service-monitor-hpp"
  const METRICS := "hpp-prometheus-metrics"

  // ------------------------------------------------------------------------ one object

  /** What a reconcile wants stored under a key, given what is found there. */
  function Aim(key: Key, desired: Tree, found: Option<Tree>): Repair {
    match found
    case None => Repaired(WithLastApplied(desired))
    case Some(f) =>
      if key.kind.PrometheusRule? then MergeObject(f, f)      // the found object is read into the desired one
      else if key.kind.CSIDriver? then RepairOf(WithImmutable(WithLastApplied(desired), f), f)
      else RepairOf(WithLastApplied(desired), f)
  }

  function Lookup<K(==), V>(m: map<K, V>, key: K): Option<V> {
    if key in m then Some(m[key]) else None
  }

  /** Nothing to repair. */
  ghost predicate InShape(objects: map<Key, Tree>, key: Key, desired: Tree) {
    key in objects && Aim(key, desired, Some(objects[key])) == Repaired(objects[key])
  }

  /** The stored object is what the reconcile aimed for. */
  ghost predicate Reached(a: map<Key, Tree>, b: map<Key, Tree>, key: Key, desired: Tree) {
    var aim := Aim(key, desired, Lookup(a, key));
    aim.Repaired? && b == a[key := aim.tree]
  }

  method CreateObject(r: Client, key: Key, tree: Tree) returns (err: Option<Error>)
    requires key !in r.objects
    modifies r`sky, r`objects, r`writes
    ensures Quiet(old(r.sky), r.sky, r.jobs)
    ensures r.objects == old(r.objects) || r.objects == old(r.objects)[key := tree]
    ensures err.None? ==> r.objects == old(r.objects)[key := tree]
    ensures old(r.sky.events) == [] ==> err.None?
  {
    var f := r.Tick();
    r.writes := r.writes + 1;
    var reply, objects := Created(r.objects, key, tree, f).0, Created(r.objects, key, tree, f).1;
    r.objects := objects;
    err := if reply == Ok then None else Some(Request);
  }

  method UpdateObject(r: Client, key: Key, tree: Tree) returns (err: Option<Error>)
    requires key in r.objects
    modifies r`sky, r`objects, r`writes
    ensures Quiet(old(r.sky), r.sky, r.jobs)
    ensures r.objects == old(r.objects) || r.objects == old(r.objects)[key := tree]
    ensures err.None? ==> r.objects == old(r.objects)[key := tree]
    ensures old(r.sky.events) == [] ==> err.None?
  {
    var f := r.Tick();
    r.writes := r.writes + 1;
    var reply, objects := Updated(r.objects, key, tree, f).0, Updated(r.objects, key, tree, f).1;
    r.objects := objects;
    err := if reply == Ok then None else Some(Request);
  }

  method ReconcileObject(r: Client, key: Key, desired: KubeObject, found: KubeObject)
    returns (err: Option<Error>, created: bool)
    requires key.kind.PrometheusRule? <==> desired == found
    modifies desired, found, r`sky, r`objects, r`writes
    ensures Quiet(old(r.sky), r.sky, r.jobs)
    ensures r.objects == old(r.objects) || Reached(old(r.objects), r.objects, key, old(desired.tree))
    ensures err.None? ==> Reached(old(r.objects), r.objects, key, old(desired.tree))
    ensures created <==> err.None? && key !in old(r.objects)
    ensures InShape(old(r.objects), key, old(desired.tree)) ==> r.objects == old(r.objects) && r.writes == old(r.writes)
    ensures old(r.sky.events) == [] ==>
              (err.None? <==> Aim(key, old(desired.tree), Lookup(old(r.objects), key)).Repaired?)
  {
    hide WithLastApplied, RepairOf, MergeObject, WithImmutable, Uids, Quiet;
    ghost var sky := r.sky;
    SetLastAppliedConfiguration(desired);
    var f := r.Tick();
    var got := Got(r.objects, key, f);
    ghost var mid := r.sky;
    QuietMeans(sky, mid, r.jobs);
    if got == NotFound {
      err := CreateObject(r, key, desired.tree);
      QuietTransitive(sky, mid, r.sky, r.jobs);
      return err, err.None?;
    }
    if got != Ok { return Some(Request), false; }
    found.tree := r.objects[key];
    var was := found.tree;
    if key.kind.CSIDriver? { CopyImmutableFields(desired, found); }
    MergeLabelsAndAnnotations(desired, found);
    assert found.tree == if desired == found then was else MergedMeta(desired.tree, was);
    var merged := Merge(desired, found);
    MergedAsAimed(key, was, old(desired.tree), merged);
    if !merged.Repaired? { return Some(MergeFailed), false; }
    if merged.tree != was {
      err := UpdateObject(r, key, merged.tree);
      QuietTransitive(sky, mid, r.sky, r.jobs);
      return err, false;
    }
    assert r.objects[key := was] == r.objects;
    return None, false;
  }

  lemma MergedAsAimed(key: Key, found: Tree, desired: Tree, merged: Repair)
    requires merged ==
             if key.kind.PrometheusRule? then MergeObject(found, found)
             else
               var modified := if key.kind.CSIDriver? then WithImmutable(WithLastApplied(desired), found)
                               else WithLastApplied(desired);
               MergeObject(modified, MergedMeta(modified, found))
    ensures merged == Aim(key, desired, Some(found))
  {
  }

  // -------------------------------------------------------------------- what a spec wants

  datatype Goal = Wanted | Unwanted | Ignored

  /** What decides the goals: the spec, the API groups served, and how objects are built. */
  datatype Setting = Setting(spec: Spec, scc: bool, prometheus: bool, manifest: (Key, Spec) -> Tree)

  ghost function SettingOf(r: Client, spec: Spec): Setting {
    Setting(spec, r.sccUsed, r.prometheusUsed, r.manifest)
  }

  function GoalOf(spec: Spec, scc: bool, prometheus: bool, key: Key): Goal {
    var legacyOnly := if IsLegacy(spec) then Wanted else Unwanted;
    var monitored := if prometheus then Wanted else Ignored;
    match key.kind
    case ClusterRole => if key.name == CSI_ACCOUNT then Wanted else if key.name == APP then legacyOnly else Ignored
    case ClusterRoleBinding => if key.name == CSI_ACCOUNT then Wanted else if key.name == APP then legacyOnly
    else Ignored
    case Role => if key.name == CSI_ACCOUNT then Wanted else if key.name == MONITORING then monitored else Ignored
    case RoleBinding => if key.name == CSI_ACCOUNT then Wanted else if key.name == MONITORING then monitored
    else Ignored
    case CSIDriver => if key.name == DRIVER then Wanted else Ignored
    case SecurityContextConstraints =>
      if !scc then Ignored else if key.name == CSI_CONSTRAINTS then Wanted else if key.name == APP then legacyOnly
      else Ignored
    case PrometheusRule => if key.name == RULES then monitored else Ignored
    case Service => if key.name == METRICS then monitored else Ignored
    case ServiceMonitor => if key.name == MONITOR then monitored else Ignored
    case ServiceAccount => if key.name == CSI_ACCOUNT then Wanted else if key.name == LEGACY_ACCOUNT then legacyOnly
    else Ignored
  }

  ghost function Aims(env: Setting, a: map<Key, Tree>, key: Key): Repair {
    Aim(key, env.manifest(key, env.spec), Lookup(a, key))
  }

  ghost function Goals(env: Setting, key: Key): Goal {
    GoalOf(env.spec, env.scc, env.prometheus, key)
  }

  /** In b the key is as the goal asks, starting from a. */
  ghost predicate Attained(env: Setting, a: map<Key, Tree>, b: map<Key, Tree>, key: Key) {
    match Goals(env, key)
    case Wanted => Aims(env, a, key).Repaired? && Lookup(b, key) == Some(Aims(env, a, key).tree)
    case Unwanted => key !in b
    case Ignored => Lookup(b, key) == Lookup(a, key)
  }

  /** A phase that is responsible for some keys, finished or not: every object is as it was, or
      one of these and as its goal asks. */
  ghost predicate Phase(env: Setting, a: map<Key, Tree>, b: map<Key, Tree>, keys: set<Key>, finished: bool) {
    && (forall key :: Lookup(b, key) == Lookup(a, key) || (key in keys && Attained(env, a, b, key)))
    && (finished ==> forall key | key in keys :: Attained(env, a, b, key))
  }

  /** Every goal is met already. */
  ghost predicate Resting(env: Setting, a: map<Key, Tree>, keys: set<Key>) {
    forall key | key in keys ::
      && (Goals(env, key).Wanted? ==> InShape(a, key, env.manifest(key, env.spec)))
      && (Goals(env, key).Unwanted? ==> key !in a)
  }

  /** Every wanted object can be merged. */
  ghost predicate Mendable(env: Setting, a: map<Key, Tree>, keys: set<Key>) {
    forall key | key in keys && Goals(env, key).Wanted? :: Aims(env, a, key).Repaired?
  }

  lemma PhaseThen(env: Setting, a: map<Key, Tree>, b: map<Key, Tree>, c: map<Key, Tree>, k: set<Key>, l: set<Key>,
                  finished: bool)
    requires Phase(env, a, b, k, true) && Phase(env, b, c, l, finished) && k !! l
    ensures Phase(env, a, c, k + l, finished)
  {
    hide GoalOf, Aim;
    forall key ensures Lookup(c, key) == Lookup(a, key) || (key in k + l && Attained(env, a, c, key)) {
      if key in l { assert Lookup(b, key) == Lookup(a, key); } else { assert Lookup(c, key) == Lookup(b, key); }
    }
    forall key | finished && key in k + l ensures Attained(env, a, c, key) {
      if key in l { assert Lookup(b, key) == Lookup(a, key); } else { assert Lookup(c, key) == Lookup(b, key); }
    }
  }

  /** Phases do not disturb the keys of others. */
  lemma PhaseApart(env: Setting, a: map<Key, Tree>, b: map<Key, Tree>, k: set<Key>, l: set<Key>, finished: bool)
    requires Phase(env, a, b, k, finished) && k !! l
    ensures Mendable(env, b, l) <==> Mendable(env, a, l)
    ensures Resting(env, b, l) <==> Resting(env, a, l)
  {
    hide GoalOf, Aim;
    assert forall key | key in l :: Lookup(b, key) == Lookup(a, key);
    forall key | key in l ensures (key in a <==> key in b) && (key in a ==> a[key] == b[key]) {
      assert Lookup(b, key) == Lookup(a, key);
    }
  }

  // ---------------------------------------------------------------------------- one key

  method DeleteObject(r: Client, key: Key) returns (err: Option<Error>)
    modifies r`sky, r`objects, r`writes
    ensures Quiet(old(r.sky), r.sky, r.jobs)
    ensures r.objects == old(r.objects) || r.objects == old(r.objects) - {key}
    ensures err.None? ==> r.objects == old(r.objects) - {key}
    ensures key !in old(r.objects) ==> r.objects == old(r.objects) && r.writes == old(r.writes)
    ensures old(r.sky.events) == [] ==> err.None?
  {
    var f := r.Tick();
    if key in r.objects { r.writes := r.writes + 1; }
    var reply, objects := Deleted(r.objects, key, f).0, Deleted(r.objects, key, f).1;
    r.objects := objects;
    err := if reply == Failed then Some(Request) else None;
  }

  /** Creates or repairs what the spec wants under a key. */
  method ReconcileResource(r: Client, spec: Spec, key: Key) returns (err: Option<Error>)
    requires GoalOf(spec, r.sccUsed, r.prometheusUsed, key).Wanted?
    modifies r`sky, r`objects, r`writes
    ensures Quiet(old(r.sky), r.sky, r.jobs)
    ensures Phase(SettingOf(r, spec), old(r.objects), r.objects, {key}, err.None?)
    ensures Resting(SettingOf(r, spec), old(r.objects), {key}) ==>
              r.objects == old(r.objects) && r.writes == old(r.writes)
    ensures old(r.sky.events) == [] ==> (err.None? <==> Mendable(SettingOf(r, spec), old(r.objects), {key}))
  {
    hide GoalOf, Uids, Obliging, Aim;
    var desired := new KubeObject(r.manifest(key, spec));
    var found := desired;
    if !key.kind.PrometheusRule? { found := new KubeObject(r.manifest(key, spec)); }
    var created;
    err, created := ReconcileObject(r, key, desired, found);
  }

  method DeleteUnwanted(r: Client, spec: Spec, key: Key) returns (err: Option<Error>)
    requires GoalOf(spec, r.sccUsed, r.prometheusUsed, key).Unwanted?
    modifies r`sky, r`objects, r`writes
    ensures Quiet(old(r.sky), r.sky, r.jobs)
    ensures Phase(SettingOf(r, spec), old(r.objects), r.objects, {key}, err.None?)
    ensures Resting(SettingOf(r, spec), old(r.objects), {key}) ==>
              r.objects == old(r.objects) && r.writes == old(r.writes)
    ensures old(r.sky.events) == [] ==> err.None? && Mendable(SettingOf(r, spec), old(r.objects), {key})
  {
    hide Uids, Obliging, Aim;
    err := DeleteObject(r, key);
  }

  /** Wanted in legacy mode only: created or repaired there, deleted otherwise. */
  method ReconcileLegacy(r: Client, spec: Spec, key: Key) returns (err: Option<Error>)
    requires GoalOf(spec, r.sccUsed, r.prometheusUsed, key) == if IsLegacy(spec) then Wanted else Unwanted
    modifies r`sky, r`objects, r`writes
    ensures Quiet(old(r.sky), r.sky, r.jobs)
    ensures Phase(SettingOf(r, spec), old(r.objects), r.objects, {key}, err.None?)
    ensures Resting(SettingOf(r, spec), old(r.objects), {key}) ==>
              r.objects == old(r.objects) && r.writes == old(r.writes)
    ensures old(r.sky.events) == [] ==> (err.None? <==> Mendable(SettingOf(r, spec), old(r.objects), {key}))
  {
    hide *;
    if IsLegacy(spec) { err := ReconcileResource(r, spec, key); } else { err := DeleteUnwanted(r, spec, key); }
  }

  // ------------------------------------------------------------------------------ phases

  const ClusterRoles := {Key(ClusterRole, APP), Key(ClusterRole, CSI_ACCOUNT)}
  const ClusterRoleBindings := {Key(ClusterRoleBinding, CSI_ACCOUNT), Key(ClusterRoleBinding, APP)}
  const Roles := {Key(Role, CSI_ACCOUNT)}
  const RoleBindings := {Key(RoleBinding, CSI_ACCOUNT)}
  const Drivers := {Key(CSIDriver, DRIVER)}
  const Constraints := {Key(SecurityContextConstraints, APP), Key(SecurityContextConstraints, CSI_CONSTRAINTS)}
  const Metrics := {Key(Service, METRICS), Key(ServiceMonitor, MONITOR)}
  const Monitoring := {Key(PrometheusRule, RULES), Key(Role, MONITORING), Key(RoleBinding, MONITORING)} + Metrics

  lemma Continue(env: Setting, a: map<Key, Tree>, b: map<Key, Tree>, c: map<Key, Tree>, k: set<Key>, l: set<Key>,
                 finished: bool)
    requires Phase(env, a, b, k, true) && Phase(env, b, c, l, finished) && k !! l
    ensures Phase(env, a, c, k + l, finished)
    ensures Resting(env, a, k + l) <==> Resting(env, a, k) && Resting(env, b, l)
    ensures Mendable(env, a, k + l) <==> Mendable(env, a, k) && Mendable(env, b, l)
  {
    PhaseThen(env, a, b, c, k, l, finished);
    PhaseApart(env, a, b, k, l, true);
  }

  lemma Stop(env: Setting, a: map<Key, Tree>, b: map<Key, Tree>, k: set<Key>, all: set<Key>, finished: bool)
    requires Phase(env, a, b, k, finished) && k <= all
    ensures Phase(env, a, b, all, false)
    ensures Resting(env, a, all) ==> Resting(env, a, k)
    ensures Mendable(env, a, all) ==> Mendable(env, a, k)
  {
  }

  /** Cluster roles. */
  method ReconcileClusterRole(r: Client, spec: Spec) returns (err: Option<Error>)
    modifies r`sky, r`objects, r`writes
    ensures Quiet(old(r.sky), r.sky, r.jobs)
    ensures Phase(SettingOf(r, spec), old(r.objects), r.objects, ClusterRoles, err.None?)
    ensures Resting(SettingOf(r, spec), old(r.objects), ClusterRoles) ==>
              r.objects == old(r.objects) && r.writes == old(r.writes)
    ensures old(r.sky.events) == [] ==> (err.None? <==> Mendable(SettingOf(r, spec), old(r.objects), ClusterRoles))
  {
    hide Phase, Resting, Mendable, Uids, Obliging;
    ghost var env, a := SettingOf(r, spec), r.objects;
    err := ReconcileLegacy(r, spec, Key(ClusterRole, APP));
    Stop(env, a, r.objects, {Key(ClusterRole, APP)}, ClusterRoles, err.None?);
    if err.Some? { return; }
    ghost var b1 := r.objects;
    err := ReconcileResource(r, spec, Key(ClusterRole, CSI_ACCOUNT));
    Continue(env, a, b1, r.objects, {Key(ClusterRole, APP)}, {Key(ClusterRole, CSI_ACCOUNT)}, err.None?);
    assert {Key(ClusterRole, APP)} + {Key(ClusterRole, CSI_ACCOUNT)} == ClusterRoles;
  }

  /** Cluster role bindings, the CSI one first. */
  method ReconcileClusterRoleBinding(r: Client, spec: Spec) returns (err: Option<Error>)
    modifies r`sky, r`objects, r`writes
    ensures Quiet(old(r.sky), r.sky, r.jobs)
    ensures Phase(SettingOf(r, spec), old(r.objects), r.objects, ClusterRoleBindings, err.None?)
    ensures Resting(SettingOf(r, spec), old(r.objects), ClusterRoleBindings) ==>
              r.objects == old(r.objects) && r.writes == old(r.writes)
    ensures old(r.sky.events) == [] ==>
              (err.None? <==> Mendable(SettingOf(r, spec), old(r.objects), ClusterRoleBindings))
  {
    hide Phase, Resting, Mendable, Uids, Obliging;
    ghost var env, a := SettingOf(r, spec), r.objects;
    err := ReconcileResource(r, spec, Key(ClusterRoleBinding, CSI_ACCOUNT));
    Stop(env, a, r.objects, {Key(ClusterRoleBinding, CSI_ACCOUNT)}, ClusterRoleBindings, err.None?);
    if err.Some? { return; }
    ghost var b1 := r.objects;
    err := ReconcileLegacy(r, spec, Key(ClusterRoleBinding, APP));
    Continue(env, a, b1, r.objects, {Key(ClusterRoleBinding, CSI_ACCOUNT)}, {Key(ClusterRoleBinding, APP)}, err.None?);
    assert {Key(ClusterRoleBinding, CSI_ACCOUNT)} + {Key(ClusterRoleBinding, APP)} == ClusterRoleBindings;
  }

  /** The operator asks for a list to learn whether an API group is served. */
  method CheckServed(r: Client, served: bool) returns (err: Option<Error>, used: bool)
    modifies r`sky
    ensures Quiet(old(r.sky), r.sky, r.jobs)
    ensures err.None? ==> used == served
    ensures old(r.sky.events) == [] ==> err.None?
  {
    var f := r.Tick();
    err := if ReadFails(f) then Some(Request) else None;
    used := err.None? && served;
  }

  lemma IgnoredPhase(env: Setting, a: map<Key, Tree>, keys: set<Key>)
    requires forall key | key in keys :: Goals(env, key).Ignored?
    ensures Phase(env, a, a, keys, true) && Resting(env, a, keys) && Mendable(env, a, keys)
  {
  }

  lemma Untouched(env: Setting, a: map<Key, Tree>, keys: set<Key>)
    ensures Phase(env, a, a, keys, false)
  {
  }

  /** Security context constraints, where they are served. */
  method ReconcileConstraints(r: Client, spec: Spec) returns (err: Option<Error>)
    modifies r`sky, r`objects, r`writes
    ensures Quiet(old(r.sky), r.sky, r.jobs)
    ensures Phase(SettingOf(r, spec), old(r.objects), r.objects, Constraints, err.None?)
    ensures Resting(SettingOf(r, spec), old(r.objects), Constraints) ==>
              r.objects == old(r.objects) && r.writes == old(r.writes)
    ensures old(r.sky.events) == [] ==> (err.None? <==> Mendable(SettingOf(r, spec), old(r.objects), Constraints))
  {
    hide Phase, Resting, Mendable, Uids, Obliging;
    ghost var env, a := SettingOf(r, spec), r.objects;
    var used;
    err, used := CheckServed(r, r.sccUsed);
    Untouched(env, a, Constraints);
    if err.Some? { return; }
    if !used {
      IgnoredPhase(env, a, Constraints);
      return;
    }
    err := ReconcileLegacy(r, spec, Key(SecurityContextConstraints, APP));
    Stop(env, a, r.objects, {Key(SecurityContextConstraints, APP)}, Constraints, err.None?);
    if err.Some? { return; }
    ghost var b1 := r.objects;
    err := ReconcileResource(r, spec, Key(SecurityContextConstraints, CSI_CONSTRAINTS));
    Continue(env, a, b1, r.objects, {Key(SecurityContextConstraints, APP)},
             {Key(SecurityContextConstraints, CSI_CONSTRAINTS)}, err.None?);
    assert {Key(SecurityContextConstraints, APP)} + {Key(SecurityContextConstraints, CSI_CONSTRAINTS)} == Constraints;
  }

  /** The metrics service and its monitor. */
  method ReconcileMetrics(r: Client, spec: Spec) returns (err: Option<Error>)
    requires r.prometheusUsed
    modifies r`sky, r`objects, r`writes
    ensures Quiet(old(r.sky), r.sky, r.jobs)
    ensures Phase(SettingOf(r, spec), old(r.objects), r.objects, Metrics, err.None?)
    ensures Resting(SettingOf(r, spec), old(r.objects), Metrics) ==>
              r.objects == old(r.objects) && r.writes == old(r.writes)
    ensures old(r.sky.events) == [] ==> (err.None? <==> Mendable(SettingOf(r, spec), old(r.objects), Metrics))
  {
    hide Phase, Resting, Mendable, Uids, Obliging;
    ghost var env, a := SettingOf(r, spec), r.objects;
    err := ReconcileResource(r, spec, Key(Service, METRICS));
    Stop(env, a, r.objects, {Key(Service, METRICS)}, Metrics, err.None?);
    if err.Some? { return; }
    ghost var b1 := r.objects;
    err := ReconcileResource(r, spec, Key(ServiceMonitor, MONITOR));
    Continue(env, a, b1, r.objects, {Key(Service, METRICS)}, {Key(ServiceMonitor, MONITOR)}, err.None?);
    assert {Key(Service, METRICS)} + {Key(ServiceMonitor, MONITOR)} == Metrics;
  }

  /** Monitoring objects, where Prometheus is served. */
  method ReconcilePrometheusInfra(r: Client, spec: Spec) returns (err: Option<Error>)
    modifies r`sky, r`objects, r`writes
    ensures Quiet(old(r.sky), r.sky, r.jobs)
    ensures Phase(SettingOf(r, spec), old(r.objects), r.objects, Monitoring, err.None?)
    ensures Resting(SettingOf(r, spec), old(r.objects), Monitoring) ==>
              r.objects == old(r.objects) && r.writes == old(r.writes)
    ensures old(r.sky.events) == [] ==> (err.None? <==> Mendable(SettingOf(r, spec), old(r.objects), Monitoring))
  {
    hide Phase, Resting, Mendable, Uids, Obliging;
    ghost var env, a := SettingOf(r, spec), r.objects;
    var used;
    err, used := CheckServed(r, r.prometheusUsed);
    Untouched(env, a, Monitoring);
    if err.Some? { return; }
    if !used {
      IgnoredPhase(env, a, Monitoring);
      return;
    }
    err := ReconcileResource(r, spec, Key(PrometheusRule, RULES));
    Stop(env, a, r.objects, {Key(PrometheusRule, RULES)}, Monitoring, err.None?);
    if err.Some? { return; }
    ghost var b1 := r.objects;
    err := ReconcileResource(r, spec, Key(Role, MONITORING));
    Continue(env, a, b1, r.objects, {Key(PrometheusRule, RULES)}, {Key(Role, MONITORING)}, err.None?);
    Stop(env, a, r.objects, {Key(PrometheusRule, RULES)} + {Key(Role, MONITORING)}, Monitoring, err.None?);
    if err.Some? { return; }
    ghost var b2 := r.objects;
    err := ReconcileResource(r, spec, Key(RoleBinding, MONITORING));
    Continue(env, a, b2, r.objects, {Key(PrometheusRule, RULES)} + {Key(Role, MONITORING)},
             {Key(RoleBinding, MONITORING)}, err.None?);
    ghost var done := {Key(PrometheusRule, RULES)} + {Key(Role, MONITORING)} + {Key(RoleBinding, MONITORING)};
    Stop(env, a, r.objects, done, Monitoring, err.None?);
    if err.Some? { return; }
    ghost var b3 := r.objects;
    err := ReconcileMetrics(r, spec);
    Continue(env, a, b3, r.objects, done, Metrics, err.None?);
    assert done + Metrics == Monitoring;
  }

  const AccessControl := ClusterRoles + ClusterRoleBindings + Roles + RoleBindings
  const Extras := Drivers + Constraints + Monitoring
  const Ownerless := AccessControl + Extras

  /** Roles and bindings, in the order the operator goes through them. */
  method ReconcileAccessControl(r: Client, spec: Spec) returns (err: Option<Error>)
    modifies r`sky, r`objects, r`writes
    ensures Quiet(old(r.sky), r.sky, r.jobs)
    ensures Phase(SettingOf(r, spec), old(r.objects), r.objects, AccessControl, err.None?)
    ensures Resting(SettingOf(r, spec), old(r.objects), AccessControl) ==>
              r.objects == old(r.objects) && r.writes == old(r.writes)
    ensures old(r.sky.events) == [] ==> (err.None? <==> Mendable(SettingOf(r, spec), old(r.objects), AccessControl))
  {
    hide Phase, Resting, Mendable, Uids, Obliging;
    ghost var env, a := SettingOf(r, spec), r.objects;
    err := ReconcileClusterRole(r, spec);
    Stop(env, a, r.objects, ClusterRoles, AccessControl, err.None?);
    if err.Some? { return; }
    ghost var b1 := r.objects;
    err := ReconcileClusterRoleBinding(r, spec);
    Continue(env, a, b1, r.objects, ClusterRoles, ClusterRoleBindings, err.None?);
    Stop(env, a, r.objects, ClusterRoles + ClusterRoleBindings, AccessControl, err.None?);
    if err.Some? { return; }
    ghost var b2 := r.objects;
    err := ReconcileResource(r, spec, Key(Role, CSI_ACCOUNT));
    Continue(env, a, b2, r.objects, ClusterRoles + ClusterRoleBindings, Roles, err.None?);
    Stop(env, a, r.objects, ClusterRoles + ClusterRoleBindings + Roles, AccessControl, err.None?);
    if err.Some? { return; }
    ghost var b3 := r.objects;
    err := ReconcileResource(r, spec, Key(RoleBinding, CSI_ACCOUNT));
    Continue(env, a, b3, r.objects, ClusterRoles + ClusterRoleBindings + Roles, RoleBindings, err.None?);
    assert ClusterRoles + ClusterRoleBindings + Roles + RoleBindings == AccessControl;
  }

  /** The driver, the constraints and the monitoring objects. */
  method ReconcileExtras(r: Client, spec: Spec) returns (err: Option<Error>)
    modifies r`sky, r`objects, r`writes
    ensures Quiet(old(r.sky), r.sky, r.jobs)
    ensures Phase(SettingOf(r, spec), old(r.objects), r.objects, Extras, err.None?)
    ensures Resting(SettingOf(r, spec), old(r.objects), Extras) ==>
              r.objects == old(r.objects) && r.writes == old(r.writes)
    ensures old(r.sky.events) == [] ==> (err.None? <==> Mendable(SettingOf(r, spec), old(r.objects), Extras))
  {
    hide Phase, Resting, Mendable, Uids, Obliging;
    ghost var env, a := SettingOf(r, spec), r.objects;
    err := ReconcileResource(r, spec, Key(CSIDriver, DRIVER));
    Stop(env, a, r.objects, Drivers, Extras, err.None?);
    if err.Some? { return; }
    ghost var b1 := r.objects;
    err := ReconcileConstraints(r, spec);
    Continue(env, a, b1, r.objects, Drivers, Constraints, err.None?);
    Stop(env, a, r.objects, Drivers + Constraints, Extras, err.None?);
    if err.Some? { return; }
    ghost var b2 := r.objects;
    err := ReconcilePrometheusInfra(r, spec);
    Continue(env, a, b2, r.objects, Drivers + Constraints, Monitoring, err.None?);
    assert Drivers + Constraints + Monitoring == Extras;
  }

  /** Everything without an owner. */
  method ReconcileOwnerless(r: Client, spec: Spec) returns (err: Option<Error>)
    modifies r`sky, r`objects, r`writes
    ensures Quiet(old(r.sky), r.sky, r.jobs)
    ensures Phase(SettingOf(r, spec), old(r.objects), r.objects, Ownerless, err.None?)
    ensures Resting(SettingOf(r, spec), old(r.objects), Ownerless) ==>
              r.objects == old(r.objects) && r.writes == old(r.writes)
    ensures old(r.sky.events) == [] ==> (err.None? <==> Mendable(SettingOf(r, spec), old(r.objects), Ownerless))
  {
    hide Phase, Resting, Mendable, Uids, Obliging;
    ghost var env, a := SettingOf(r, spec), r.objects;
    err := ReconcileAccessControl(r, spec);
    Stop(env, a, r.objects, AccessControl, Ownerless, err.None?);
    if err.Some? { return; }
    ghost var b1 := r.objects;
    err := ReconcileExtras(r, spec);
    Continue(env, a, b1, r.objects, AccessControl, Extras, err.None?);
    assert AccessControl + Extras == Ownerless;
  }

  // ---------------------------------------------------------------------------- deletion

  const RbacKinds := {ClusterRole, ClusterRoleBinding, Role, RoleBinding}
  const RbacNames := [LEGACY_ACCOUNT, CSI_ACCOUNT, APP]

  ghost function RbacKeys(names: seq<string>): set<Key> {
    set kind, name | kind in RbacKinds && name in names :: Key(kind, name)
  }

  ghost function KeysOf(order: seq<Key>): set<Key> {
    set k | k in order
  }

  /** What is deleted with the custom resource. */
  ghost function Doomed(scc: bool, prometheus: bool): set<Key> {
    RbacKeys(RbacNames)
    + Drivers + (if scc then Constraints else {}) + (if prometheus then Monitoring else {})
  }

  /** Some of these keys are gone, and all of them if finished; nothing else changed. */
  ghost predicate Deleting(a: map<Key, Tree>, b: map<Key, Tree>, keys: set<Key>, finished: bool) {
    Kept(b, a) && a.Keys - b.Keys <= keys && (finished ==> b.Keys !! keys)
  }

  lemma DeletingThen(a: map<Key, Tree>, b: map<Key, Tree>, c: map<Key, Tree>, k: set<Key>, l: set<Key>, finished: bool)
    requires Deleting(a, b, k, true) && Deleting(b, c, l, finished)
    ensures Deleting(a, c, k + l, finished)
  {
  }

  lemma DeletingWidens(a: map<Key, Tree>, b: map<Key, Tree>, k: set<Key>, l: set<Key>, finished: bool)
    requires Deleting(a, b, k, finished) && k <= l
    ensures Deleting(a, b, l, false)
  {
  }

  method DeleteKey(r: Client, key: Key) returns (err: Option<Error>)
    modifies r`sky, r`objects, r`writes
    ensures Quiet(old(r.sky), r.sky, r.jobs)
    ensures Deleting(old(r.objects), r.objects, {key}, err.None?)
    ensures old(r.sky.events) == [] ==> err.None?
  {
    err := DeleteObject(r, key);
  }

  method DeleteScc(r: Client, name: string) returns (err: Option<Error>)
    modifies r`sky, r`objects, r`writes
    ensures Quiet(old(r.sky), r.sky, r.jobs)
    ensures Deleting(old(r.objects), r.objects, if r.sccUsed then {Key(SecurityContextConstraints, name)}
                     else {}, err.None?)
    ensures old(r.sky.events) == [] ==> err.None?
  {
    var used;
    err, used := CheckServed(r, r.sccUsed);
    if err.Some? || !used { return; }
    err := DeleteKey(r, Key(SecurityContextConstraints, name));
  }

  method DeletePrometheusResources(r: Client) returns (err: Option<Error>)
    modifies r`sky, r`objects, r`writes
    ensures Quiet(old(r.sky), r.sky, r.jobs)
    ensures Deleting(old(r.objects), r.objects, if r.prometheusUsed then Monitoring else {}, err.None?)
    ensures old(r.sky.events) == [] ==> err.None?
  {
    var used;
    err, used := CheckServed(r, r.prometheusUsed);
    if err.Some? || !used { return; }
    var order := [Key(PrometheusRule, RULES), Key(Role, MONITORING), Key(RoleBinding, MONITORING),
                  Key(ServiceMonitor, MONITOR), Key(Service, METRICS)];
    assert Monitoring == KeysOf(order);
    err := DeleteInOrder(r, order);
  }

  method DeleteInOrder(r: Client, order: seq<Key>) returns (err: Option<Error>)
    modifies r`sky, r`objects, r`writes
    ensures Quiet(old(r.sky), r.sky, r.jobs)
    ensures Deleting(old(r.objects), r.objects, KeysOf(order), err.None?)
    ensures old(r.sky.events) == [] ==> err.None?
  {
    hide Uids, Obliging;
    for i := 0 to |order|
      invariant Quiet(old(r.sky), r.sky, r.jobs)
      invariant Deleting(old(r.objects), r.objects, KeysOf(order[..i]), true)
    {
      ghost var b, done := r.objects, KeysOf(order[..i]);
      err := DeleteKey(r, order[i]);
      DeletingThen(old(r.objects), b, r.objects, done, {order[i]}, err.None?);
      assert done + {order[i]} == KeysOf(order[..i + 1]);
      if err.Some? {
        DeletingWidens(old(r.objects), r.objects, done + {order[i]}, KeysOf(order), false);
        return;
      }
    }
    assert order[..|order|] == order;
    err := None;
  }

  /** Bindings before the roles they bind, for the three names ever used. */
  method DeleteAllRbac(r: Client) returns (err: Option<Error>)
    modifies r`sky, r`objects, r`writes
    ensures Quiet(old(r.sky), r.sky, r.jobs)
    ensures Deleting(old(r.objects), r.objects, RbacKeys(RbacNames), err.None?)
    ensures old(r.sky.events) == [] ==> err.None?
  {
    hide Uids, Obliging;
    ghost var all := RbacKeys(RbacNames);
    for i := 0 to |RbacNames|
      invariant Quiet(old(r.sky), r.sky, r.jobs)
      invariant Deleting(old(r.objects), r.objects, RbacKeys(RbacNames[..i]), true)
    {
      ghost var b, done := r.objects, RbacKeys(RbacNames[..i]);
      var name := RbacNames[i];
      var order := [Key(ClusterRoleBinding, name), Key(ClusterRole, name), Key(RoleBinding, name), Key(Role, name)];
      err := DeleteInOrder(r, order);
      DeletingThen(old(r.objects), b, r.objects, done, KeysOf(order), err.None?);
      assert done + KeysOf(order) == RbacKeys(RbacNames[..i + 1]);
      if err.Some? {
        DeletingWidens(old(r.objects), r.objects, done + KeysOf(order), all, false);
        return;
      }
    }
    assert RbacNames[..|RbacNames|] == RbacNames;
    err := None;
  }

  method DeleteConstraints(r: Client) returns (err: Option<Error>)
    modifies r`sky, r`objects, r`writes
    ensures Quiet(old(r.sky), r.sky, r.jobs)
    ensures Deleting(old(r.objects), r.objects, if r.sccUsed then Constraints else {}, err.None?)
    ensures old(r.sky.events) == [] ==> err.None?
  {
    hide Uids, Obliging;
    ghost var a, k := r.objects, if r.sccUsed then {Key(SecurityContextConstraints, APP)} else {};
    err := DeleteScc(r, APP);
    if err.Some? { return; }
    ghost var b := r.objects;
    err := DeleteScc(r, CSI_CONSTRAINTS);
    DeletingThen(a, b, r.objects, k, if r.sccUsed then {Key(SecurityContextConstraints, CSI_CONSTRAINTS)}
                 else {}, err.None?);
  }

  /** Everything without an owner goes, in the order of the deletion run. */
  method DeleteOwnerless(r: Client) returns (err: Option<Error>)
    modifies r`sky, r`objects, r`writes
    ensures Quiet(old(r.sky), r.sky, r.jobs)
    ensures Deleting(old(r.objects), r.objects, Doomed(r.sccUsed, r.prometheusUsed), err.None?)
    ensures old(r.sky.events) == [] ==> err.None?
  {
    hide Deleting, Uids, Obliging, RbacKeys;
    ghost var a, all := r.objects, Doomed(r.sccUsed, r.prometheusUsed);
    ghost var k1 := if r.sccUsed then Constraints else {};
    err := DeleteConstraints(r);
    DeletingWidens(a, r.objects, k1, all, err.None?);
    if err.Some? { return; }
    ghost var b, k2 := r.objects, if r.prometheusUsed then Monitoring else {};
    err := DeletePrometheusResources(r);
    DeletingThen(a, b, r.objects, k1, k2, err.None?);
    DeletingWidens(a, r.objects, k1 + k2, all, err.None?);
    if err.Some? { return; }
    ghost var c, k3 := r.objects, RbacKeys(RbacNames);
    err := DeleteAllRbac(r);
    DeletingThen(a, c, r.objects, k1 + k2, k3, err.None?);
    DeletingWidens(a, r.objects, k1 + k2 + k3, all, err.None?);
    if err.Some? { return; }
    ghost var d := r.objects;
    err := DeleteKey(r, Key(CSIDriver, DRIVER));
    DeletingThen(a, d, r.objects, k1 + k2 + k3, Drivers, err.None?);
    assert k1 + k2 + k3 + Drivers == all;
  }
}
