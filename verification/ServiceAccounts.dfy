// Service accounts, and what runs under them when one has to be created anew (serviceaccount.go).

module ServiceAccounts {
  import opened CustomResource
  import opened Json
  import opened Cluster
  import opened Drift
  import opened Objects
  import DaemonSets

  function Account(name: string): Key {
    Key(ServiceAccount, name)
  }

  const Accounts := {Account(LEGACY_ACCOUNT), Account(CSI_ACCOUNT)}

  /** The accounts a spec wants are all there. */
  ghost predicate HasAccounts(objects: map<Key, Tree>, spec: Spec) {
    Account(CSI_ACCOUNT) in objects && (IsLegacy(spec) ==> Account(LEGACY_ACCOUNT) in objects)
  }

  // ---------------------------------------------------------------------- earlier versions

  predicate OwnedBy(t: Tree, owner: string) {
    var m := Meta(t).fields;
    "ownerReferences" in m && m["ownerReferences"].Arr? && exists ref | ref in m["ownerReferences"].items ::
      ref.Obj? && "kind" in ref.fields && ref.fields["kind"] == Str("HostPathProvisioner") && "name" in ref.fields
      && ref.fields["name"] == Str(owner)
  }

  predicate IsDuplicate(key: Key, t: Tree, owner: string) {
    var labels := Section(t, "labels").fields;
    && key.kind.ServiceAccount? && key.name != LEGACY_ACCOUNT && key.name != CSI_ACCOUNT
    && "k8s-app" in labels && labels["k8s-app"] in {Str(APP), Str(owner)} && OwnedBy(t, owner)
  }

  /** Accounts that an earlier version named after the custom resource. */
  function Duplicates(objects: map<Key, Tree>, owner: string): set<Key> {
    set key | key in objects && IsDuplicate(key, objects[key], owner)
  }

  /** Some of them, or all. */
  ghost predicate Gone(objects: map<Key, Tree>, owner: string, gone: set<Key>, all: bool) {
    gone <= Duplicates(objects, owner) && (all ==> gone == Duplicates(objects, owner))
  }

  method DeleteDuplicates(r: Client) returns (err: Option<Error>)
    modifies r`sky, r`objects, r`writes
    ensures Quiet(old(r.sky), r.sky, r.jobs)
    ensures exists gone :: gone <= Duplicates(old(r.objects), r.name) && r.objects == old(r.objects) - gone
    ensures err.None? ==> r.objects == old(r.objects) - Duplicates(old(r.objects), r.name)
    ensures Duplicates(old(r.objects), r.name) == {} ==> r.objects == old(r.objects) && r.writes == old(r.writes)
    ensures old(r.sky.events) == [] ==> err.None?
  {
    hide Uids, Obliging, IsDuplicate, Passed;
    ghost var sky := r.sky;
    var f := r.Tick();
    if ReadFails(f) {
      assert r.objects == old(r.objects) - {};
      return Some(Request);
    }
    var all := Duplicates(r.objects, r.name);
    var todo := all;
    assert r.objects == old(r.objects) - (all - todo);
    PassedTransitive(sky, r.sky, r.sky, r.jobs);
    while todo != {}
      invariant todo <= all
      invariant r.objects == old(r.objects) - (all - todo)
      invariant Quiet(sky, r.sky, r.jobs) && (sky.events == [] ==> r.sky.events == [])
      invariant todo == all ==> r.writes == old(r.writes)
    {
      ghost var before := r.sky;
      var key :| key in todo;
      err := DeleteObject(r, key);
      PassedTransitive(sky, before, r.sky, r.jobs);
      assert all - (todo - {key}) == (all - todo) + {key};
      if err.Some? {
        assert r.objects == old(r.objects) - (all - todo) || r.objects == old(r.objects) - (all - (todo - {key}));
        return;
      }
      todo := todo - {key};
    }
    assert all - {} == all;
    err := None;
  }

  // ------------------------------------------------------------------- running under them

  /** The accounts a spec wants that are not there. */
  ghost function Absent(objects: map<Key, Tree>, spec: Spec): set<string> {
    set account | account in {"hostpath-provisioner-admin", "hostpath-provisioner-admin-csi"}
                  && (account == "hostpath-provisioner-admin" ==> spec.pathConfig.Some?)
                  && Account(account) !in objects
  }


  /** Only what runs under certain accounts goes: daemon sets, and deployments with ready pods. */
  ghost predicate OnlyRestarts(accounts: set<string>, a: map<string, DaemonSet>, b: map<string, DaemonSet>,
                               c: map<string, Deployment>, d: map<string, Deployment>) {
    && Kept(b, a) && Kept(d, c)
    && (forall k | k in a && k !in b :: a[k].serviceAccount in accounts)
    && (forall k | k in c && k !in d :: c[k].spec.serviceAccount in accounts && c[k].ready > 0)
  }

  lemma NoRestarts(accounts: set<string>, a: map<string, DaemonSet>, b: map<string, Deployment>)
    ensures OnlyRestarts(accounts, a, a, b, b)
  {
  }

  lemma RestartsThen(accounts: set<string>, more: set<string>, a: map<string, DaemonSet>, b: map<string, DaemonSet>,
                     c: map<string, DaemonSet>, d: map<string, Deployment>, e: map<string, Deployment>,
                     f: map<string, Deployment>)
    requires OnlyRestarts(accounts, a, b, d, e) && OnlyRestarts(more, b, c, e, f)
    ensures OnlyRestarts(accounts + more, a, c, d, f)
  {
  }

  lemma RestartsWiden(accounts: set<string>, more: set<string>, a: map<string, DaemonSet>, b: map<string, DaemonSet>,
                      c: map<string, Deployment>, d: map<string, Deployment>)
    requires OnlyRestarts(accounts, a, b, c, d) && accounts <= more
    ensures OnlyRestarts(more, a, b, c, d)
  {
  }


  /** Daemon sets with available pods under an account. */
  function AvailableAs(m: map<string, DaemonSet>, sky: Sky, account: string): set<string> {
    set k | k in m && m[k].serviceAccount == account && ReadinessOf(sky, k).available > 0
  }

  /** Daemon sets with available pods under the account go; they are recreated by the next run. */
  method DeleteDaemonSetsWithSa(r: Client, account: string) returns (err: Option<Error>)
    modifies r`sky, r`daemonSets, r`writes
    ensures Passed(old(r.sky), r.sky, r.jobs)
    ensures Kept(r.daemonSets, old(r.daemonSets))
    ensures forall k | k in old(r.daemonSets) && k !in r.daemonSets ::
              old(r.daemonSets)[k].serviceAccount == account
    ensures old(r.sky.events) == [] ==>
              forall k | k in old(r.daemonSets) ::
                k in r.daemonSets <==> !(old(r.daemonSets)[k].serviceAccount == account
                                         && k in old(r.sky.readiness) && old(r.sky.readiness)[k].available > 0)

    ensures old(r.sky.events) == [] ==>
              err.None? && r.daemonSets == old(r.daemonSets) - AvailableAs(old(r.daemonSets), old(r.sky), account)
  {
    hide Uids, Obliging;
    var f := r.Tick();
    if ReadFails(f) { return Some(Request); }
    var all := AvailableAs(r.daemonSets, r.sky, account);
    var todo := all;
    while todo != {}
      invariant Passed(old(r.sky), r.sky, r.jobs)
      invariant Kept(r.daemonSets, old(r.daemonSets))
      invariant todo <= all && r.daemonSets == old(r.daemonSets) - (all - todo)
    {
      var k :| k in todo;
      err := DaemonSets.DeleteDaemonSet(r, k);
      if err.Some? { return; }
      todo := todo - {k};
      assert all - todo == (all - (todo + {k})) + {k};
    }
    err := None;
  }

  /** Deployments that run ready pods under an account, whoever owns them. */
  function RunningAs(m: map<string, Deployment>, account: string): set<string> {
    set k | k in m && m[k].spec.serviceAccount == account && m[k].ready > 0
  }

  method DeleteDeploymentsWithSa(r: Client, account: string) returns (err: Option<Error>)
    modifies r`sky, r`deployments, r`writes
    ensures Passed(old(r.sky), r.sky, r.jobs)
    ensures Kept(r.deployments, old(r.deployments))
    ensures old(r.deployments).Keys - r.deployments.Keys <= RunningAs(old(r.deployments), account)
    ensures err.None? ==> r.deployments == old(r.deployments) - RunningAs(old(r.deployments), account)
    ensures forall k | k in old(r.deployments) && k !in r.deployments ::
              old(r.deployments)[k].spec.serviceAccount == account && old(r.deployments)[k].ready > 0
    ensures err.None? ==> forall k | k in r.deployments ::
                r.deployments[k].spec.serviceAccount != account || r.deployments[k].ready == 0
    ensures old(r.sky.events) == [] ==> err.None?

  {
    hide Uids, Obliging, RunningAs, Passed;
    ghost var sky := r.sky;
    var f := r.Tick();
    QuietPasses(sky, r.sky, r.jobs);
    RunningMeans(r.deployments, account);
    if ReadFails(f) { return Some(Request); }
    var all := RunningAs(r.deployments, account);
    var todo := all;
    while todo != {}
      invariant Passed(sky, r.sky, r.jobs) && (sky.events == [] ==> r.sky.events == []) && todo <= all
      invariant r.deployments == old(r.deployments) - (all - todo)
    {
      var k :| k in todo;
      ghost var mid := r.sky;
      f := r.Tick();
      QuietPasses(mid, r.sky, r.jobs);
      PassedTransitive(sky, mid, r.sky, r.jobs);
      r.writes := r.writes + 1;
      var reply, deployments := Deleted(r.deployments, k, f).0, Deleted(r.deployments, k, f).1;
      r.deployments := deployments;
      if reply == Failed { return Some(Request); }
      todo := todo - {k};
      assert all - todo == (all - (todo + {k})) + {k};
    }
    err := None;
  }

  lemma RunningMeans(m: map<string, Deployment>, account: string)
    ensures forall k | k in m ::
              k in RunningAs(m, account) <==> m[k].spec.serviceAccount == account && m[k].ready > 0
  {
  }

  /** Pods that outlive their account are no longer authenticated; since the operator may not
      delete pods, it deletes what manages them. */
  method DeleteRunningPodsWithSa(r: Client, account: string) returns (err: Option<Error>)
    modifies r`sky, r`daemonSets, r`deployments, r`writes
    ensures Passed(old(r.sky), r.sky, r.jobs)
    ensures Kept(r.daemonSets, old(r.daemonSets)) && Kept(r.deployments, old(r.deployments))
    ensures forall k | k in old(r.daemonSets) && k !in r.daemonSets :: old(r.daemonSets)[k].serviceAccount == account
    ensures forall k | k in old(r.deployments) && k !in r.deployments ::
              old(r.deployments)[k].spec.serviceAccount == account && old(r.deployments)[k].ready > 0
    ensures err.None? ==> r.deployments == old(r.deployments) - RunningAs(old(r.deployments), account)
    ensures old(r.sky.events) == [] ==>
              err.None? && r.daemonSets == old(r.daemonSets) - AvailableAs(old(r.daemonSets), old(r.sky), account)
  {
    err := DeleteDaemonSetsWithSa(r, account);
    if err.Some? { return; }
    err := DeleteDeploymentsWithSa(r, account);
  }

  // --------------------------------------------------------------------------- the phase

  method ReconcileAccount(r: Client, spec: Spec, account: string) returns (err: Option<Error>)
    requires GoalOf(spec, r.sccUsed, r.prometheusUsed, Account(account)).Wanted?
             && account in {LEGACY_ACCOUNT, CSI_ACCOUNT}
    modifies r`sky, r`objects, r`writes, r`daemonSets, r`deployments
    ensures Passed(old(r.sky), r.sky, r.jobs)
    ensures Phase(SettingOf(r, spec), old(r.objects), r.objects, {Account(account)}, err.None?)
    ensures OnlyRestarts(Absent(old(r.objects), spec) * {account}, old(r.daemonSets), r.daemonSets, old(r.deployments),
                         r.deployments)

    ensures Account(account) in old(r.objects) ==>
              r.daemonSets == old(r.daemonSets) && r.deployments == old(r.deployments)
              && Quiet(old(r.sky), r.sky, r.jobs)
    ensures err.None? && Account(account) !in old(r.objects) ==>
              r.deployments == old(r.deployments) - RunningAs(old(r.deployments), account)
    ensures old(r.sky.events) == [] && err.None? && Account(account) !in old(r.objects) ==>
              r.daemonSets == old(r.daemonSets) - AvailableAs(old(r.daemonSets), old(r.sky), account)
    ensures Resting(SettingOf(r, spec), old(r.objects), {Account(account)}) ==>
              r.objects == old(r.objects) && r.writes == old(r.writes)
    ensures old(r.sky.events) == [] ==>
              (err.None? <==> Mendable(SettingOf(r, spec), old(r.objects), {Account(account)}))
  {
    hide GoalOf, Aim, Passed, Quiet, Uids, AvailableAs, RunningAs, OnlyRestarts, Absent, LEGACY_ACCOUNT, CSI_ACCOUNT;
    var key, created := Account(account), false;
    var desired := new KubeObject(r.manifest(key, spec));
    var found := new KubeObject(r.manifest(key, spec));
    ghost var sky := r.sky;
    err, created := ReconcileObject(r, key, desired, found);
    ghost var mid := r.sky;
    QuietMeans(sky, mid, r.jobs);
    QuietPasses(sky, mid, r.jobs);
    if created {
      err := DeleteRunningPodsWithSa(r, account);
      PassedTransitive(sky, mid, r.sky, r.jobs);
    }
    RestartsOfOne(r, spec, account, old(r.objects), old(r.daemonSets), r.daemonSets, old(r.deployments), r.deployments);

  }

  lemma RestartsOfOne(r: Client, spec: Spec, account: string, objects: map<Key, Tree>, a: map<string, DaemonSet>,
                      b: map<string, DaemonSet>, c: map<string, Deployment>, d: map<string, Deployment>)
    requires GoalOf(spec, r.sccUsed, r.prometheusUsed, Account(account)).Wanted?
             && account in {LEGACY_ACCOUNT, CSI_ACCOUNT}
    requires Kept(b, a) && Kept(d, c) && (Account(account) in objects ==> b == a && d == c)
    requires forall k | k in a && k !in b :: a[k].serviceAccount == account
    requires forall k | k in c && k !in d :: c[k].spec.serviceAccount == account && c[k].ready > 0
    ensures OnlyRestarts(Absent(objects, spec) * {account}, a, b, c, d)
  {
  }


  method ReconcileServiceAccounts(r: Client, spec: Spec) returns (err: Option<Error>)
    modifies r`sky, r`objects, r`writes, r`daemonSets, r`deployments
    ensures Passed(old(r.sky), r.sky, r.jobs)
    ensures exists gone :: Gone(old(r.objects), r.name, gone, err.None?)
                           && Phase(SettingOf(r, spec), old(r.objects) - gone, r.objects, Accounts, err.None?)
    ensures OnlyRestarts(Absent(old(r.objects), spec), old(r.daemonSets), r.daemonSets, old(r.deployments),
                         r.deployments)
    ensures HasAccounts(old(r.objects), spec) ==>
              r.daemonSets == old(r.daemonSets) && r.deployments == old(r.deployments)
              && Quiet(old(r.sky), r.sky, r.jobs)
    ensures Duplicates(old(r.objects), r.name) == {} && Resting(SettingOf(r, spec), old(r.objects), Accounts) ==>
              r.objects == old(r.objects) && r.writes == old(r.writes)
    ensures old(r.sky.events) == [] ==> (err.None? <==> Mendable(SettingOf(r, spec), old(r.objects), Accounts))
  {
    hide Uids, Obliging, Aim, GoalOf, IsDuplicate, Passed;
    ghost var env, sky := SettingOf(r, spec), r.sky;
    err := DeleteDuplicates(r);
    ghost var some :| some <= Duplicates(old(r.objects), r.name) && r.objects == old(r.objects) - some;
    ghost var gone := if err.None? then Duplicates(old(r.objects), r.name) else some;
    assert Gone(old(r.objects), r.name, gone, err.None?) && Gone(old(r.objects), r.name, gone, false)
           && r.objects == old(r.objects) - gone;
    Untouched(env, r.objects, Accounts);
    PassedTransitive(sky, sky, r.sky, r.jobs);
    if err.Some? { return; }
    ghost var b, sky2 := r.objects, r.sky;
    DuplicatesApart(env, old(r.objects), b, r.name, spec);
    err := ReconcileBoth(r, spec);
    PassedTransitive(sky, sky2, r.sky, r.jobs);
  }

  /** Both accounts, the legacy one first. */
  method ReconcileBoth(r: Client, spec: Spec) returns (err: Option<Error>)
    modifies r`sky, r`objects, r`writes, r`daemonSets, r`deployments
    ensures Passed(old(r.sky), r.sky, r.jobs)
    ensures Phase(SettingOf(r, spec), old(r.objects), r.objects, Accounts, err.None?)
    ensures OnlyRestarts(Absent(old(r.objects), spec), old(r.daemonSets), r.daemonSets, old(r.deployments),
                         r.deployments)
    ensures HasAccounts(old(r.objects), spec) ==>
              r.daemonSets == old(r.daemonSets) && r.deployments == old(r.deployments)
              && Quiet(old(r.sky), r.sky, r.jobs)
    ensures Resting(SettingOf(r, spec), old(r.objects), Accounts) ==>
              r.objects == old(r.objects) && r.writes == old(r.writes)
    ensures old(r.sky.events) == [] ==> (err.None? <==> Mendable(SettingOf(r, spec), old(r.objects), Accounts))
  {
    hide OnlyRestarts, Uids, Obliging, Passed, Phase, Resting, Mendable;
    ghost var env, a, sky := SettingOf(r, spec), r.objects, r.sky;
    if IsLegacy(spec) {
      err := ReconcileAccount(r, spec, LEGACY_ACCOUNT);
    } else {
      err := DeleteUnwanted(r, spec, Account(LEGACY_ACCOUNT));
      NoRestarts(Absent(a, spec) * {LEGACY_ACCOUNT}, r.daemonSets, r.deployments);
    }
    PassedTransitive(sky, sky, r.sky, r.jobs);
    RestartsWiden(Absent(a, spec) * {LEGACY_ACCOUNT}, Absent(a, spec), old(r.daemonSets), r.daemonSets,
                  old(r.deployments),
                  r.deployments);
    Stop(env, a, r.objects, {Account(LEGACY_ACCOUNT)}, Accounts, err.None?);
    if err.Some? { return; }
    ghost var b, sky2 := r.objects, r.sky;
    ghost var daemonSets, deployments := r.daemonSets, r.deployments;
    AccountStays(env, a, b);
    err := ReconcileAccount(r, spec, CSI_ACCOUNT);
    PassedTransitive(sky, sky2, r.sky, r.jobs);
    RestartsThen(Absent(a, spec) * {LEGACY_ACCOUNT}, Absent(b, spec) * {CSI_ACCOUNT}, old(r.daemonSets), daemonSets,
                 r.daemonSets,
                 old(r.deployments), deployments, r.deployments);
    RestartsWiden(Absent(a, spec) * {LEGACY_ACCOUNT} + Absent(b, spec) * {CSI_ACCOUNT}, Absent(a, spec),
                  old(r.daemonSets), r.daemonSets,
                  old(r.deployments), r.deployments);
    Continue(env, a, b, r.objects, {Account(LEGACY_ACCOUNT)}, {Account(CSI_ACCOUNT)}, err.None?);
    assert {Account(LEGACY_ACCOUNT)} + {Account(CSI_ACCOUNT)} == Accounts;
  }

  lemma AccountStays(env: Setting, a: map<Key, Tree>, b: map<Key, Tree>)
    requires Phase(env, a, b, {Account(LEGACY_ACCOUNT)}, true)
    ensures Account(CSI_ACCOUNT) in a <==> Account(CSI_ACCOUNT) in b
  {
    assert Lookup(b, Account(CSI_ACCOUNT)) == Lookup(a, Account(CSI_ACCOUNT));
  }

  lemma DuplicatesApart(env: Setting, a: map<Key, Tree>, b: map<Key, Tree>, owner: string, spec: Spec)
    requires b == a - Duplicates(a, owner)
    ensures HasAccounts(b, spec) <==> HasAccounts(a, spec)
    ensures Mendable(env, b, Accounts) <==> Mendable(env, a, Accounts)
    ensures Resting(env, b, Accounts) <==> Resting(env, a, Accounts)
    ensures Duplicates(a, owner) == {} ==> b == a
    ensures Absent(b, spec) == Absent(a, spec)

  {
    forall key | key in Accounts ensures key !in Duplicates(a, owner) && Lookup(b, key) == Lookup(a, key) { }
  }
}
