// Everything the operator manages, in the order a run goes through it (reconcileUpdate in
// controller.go): daemon sets, storage pools, service accounts and the ownerless objects.

module Holdings {
  import opened CustomResource
  import opened Json
  import opened Cluster
  import opened Cleanup
  import opened StoragePools
  import opened Objects
  import DaemonSets
  import ServiceAccounts
  import opened Convergence

  /** Everything a run for a live resource works on. */
  datatype Store = Store(sky: Sky, pods: map<string, Pod>, daemonSets: map<string, DaemonSet>, view: View,
                         objects: map<Key, Tree>, jobs: JobView)

  ghost function StoreOf(r: Client): Store
    reads r
  {
    Store(r.sky, r.pods, r.daemonSets, ViewOf(r), r.objects, JobsOf(r))
  }

  /** Time passed, jobs completed, and nothing else happened. */
  ghost predicate Idle(a: Store, b: Store) {
    b == a.(sky := b.sky, jobs := a.jobs.(finished := b.sky.finished)) && Quiet(a.sky, b.sky, a.jobs.jobs)
  }

  ghost predicate HousedIn(s: Store) {
    DaemonSets.Housed(s.daemonSets, s.pods, s.sky.nodes, s.jobs.nextUid)
  }

  // -------------------------------------------------------------- daemon sets and pools

  /** The jobs made up to b unmount pool deployments that went between a and m, and of those all, or
      all but one at most, were cleaned up after: the job is there, refused, or the node was lost. */
  ghost predicate Unmounting(spec: Spec, a: Store, m: map<string, Deployment>, b: Store, all: bool) {
    && (all ==> AllCleanedUp(spec.storagePools, a.view.deployments, m, b.jobs, b.sky.steady, Obliging(a.sky.events)))
    && MadeForDeleted(spec.storagePools, a.view.deployments, m, a.jobs, b.jobs)
    && OneLost(spec.storagePools, a.view.deployments, a.view.deployments, m, b.jobs, b.sky.steady,
               Obliging(a.sky.events))
  }

  lemma NothingToUnmount(spec: Spec, a: Store, b: Store, all: bool)
    requires b.jobs.log == a.jobs.log
    ensures Unmounting(spec, a, a.view.deployments, b, all)
  {
  }

  /** Later, with no new job: what was cleaned up stays cleaned up. */
  lemma UnmountedStays(spec: Spec, a: Store, m: map<string, Deployment>, b: Store, c: Store, all: bool)
    requires Unmounting(spec, a, m, b, all) && JobsAdvance(b.jobs, c.jobs) && c.jobs.log == b.jobs.log
    requires WellLogged(b.jobs) && c.sky.steady <= b.sky.steady
    ensures Unmounting(spec, a, m, c, all)
  {
    hide CleanedUp, JobFor, JobsAdvance, WellLogged, Obliging;
    var items, calm := a.view.deployments, Obliging(a.sky.events);
    forall j | j in items && j !in m && CleanedUp(spec.storagePools, j, items[j], b.jobs, b.sky.steady, calm)
      ensures CleanedUp(spec.storagePools, j, items[j], c.jobs, c.sky.steady, calm)
    {
      CleanedUpStays(spec.storagePools, j, items[j], b.jobs, c.jobs, b.sky.steady, c.sky.steady, calm, calm);
    }
  }

  /** The same, counted from earlier on. */
  lemma UnmountedSince(spec: Spec, a: Store, b: Store, m: map<string, Deployment>, c: Store, all: bool)
    requires Unmounting(spec, b, m, c, all) && b.view.deployments == a.view.deployments && b.jobs.log == a.jobs.log
    requires Obliging(a.sky.events) ==> Obliging(b.sky.events)
    ensures Unmounting(spec, a, m, c, all)
  {
    hide CleanedUp, JobFor, Obliging;
    var items := a.view.deployments;
    forall j | j in items && j !in m
               && CleanedUp(spec.storagePools, j, items[j], c.jobs, c.sky.steady, Obliging(b.sky.events))
      ensures CleanedUp(spec.storagePools, j, items[j], c.jobs, c.sky.steady, Obliging(a.sky.events))
    {
      CleanedUpWeaker(spec.storagePools, j, items[j], c.jobs, c.sky.steady, Obliging(a.sky.events),
                      Obliging(b.sky.events));
    }
  }


  /** The pairs a spec wants on the nodes in use. */
  function PairsWanted(spec: Spec, daemonSets: map<string, DaemonSet>, pods: map<string, Pod>): set<Pair> {
    WantedPairs(spec, UsedNodes(daemonSets, pods))
  }

  /** The number of writes does not matter to what is lost. */
  lemma NothingLost(a: View, b: View, pairs: set<Pair>)
    requires b == a.(writes := b.writes)
    ensures NoGroundLost(a, b, pairs)
    ensures forall c | NoGroundLost(b, c, pairs) :: NoGroundLost(a, c, pairs)
  {
  }

  /** What daemon sets and pools go through in one run, completed or not. */
  ghost predicate WorkloadsRun(spec: Spec, owner: string, a: Store, b: Store, ok: bool) {
    && Later(a.sky, b.sky) && JobsAdvance(a.jobs, b.jobs) && b.pods == a.pods && b.objects == a.objects
    && DaemonSets.Identified(a.daemonSets, b.daemonSets, a.jobs.nextUid, b.jobs.nextUid)
    && (ok && CSI_DAEMON_SET in a.daemonSets ==> DaemonSets.SameCsi(a.daemonSets, b.daemonSets))
    && DaemonSets.Tending(a.daemonSets, b.daemonSets, owner, spec)
    && NoGroundLost(a.view, b.view, PairsWanted(spec, b.daemonSets, b.pods))
    && Unmounting(spec, a, b.view.deployments, b, ok)
    && (ok ==> DaemonSets.AllCurrent(b.daemonSets, owner, spec)
               && Converged(b.view, PairsWanted(spec, b.daemonSets, b.pods)))
    && DaemonSets.JunkCount(b.daemonSets, spec) <= DaemonSets.JunkCount(a.daemonSets, spec)
    && (a.sky.events == [] && HousedIn(a) ==>
          && HousedIn(b) && (ok <==> DaemonSets.JunkCount(a.daemonSets, spec) == 0)
          && (!ok ==> DaemonSets.JunkCount(b.daemonSets, spec) < DaemonSets.JunkCount(a.daemonSets, spec)))
    && (DaemonSets.AllCurrent(a.daemonSets, owner, spec) && AtRest(a.view, PairsWanted(spec, a.daemonSets, a.pods)) ==>
          Idle(a, b))
  }

  ghost predicate DaemonSetsRun(spec: Spec, owner: string, a: Store, b: Store, ok: bool) {
    && b == a.(sky := b.sky, daemonSets := b.daemonSets, view := a.view.(writes := b.view.writes),
            jobs := a.jobs.(finished := b.sky.finished, nextUid := b.jobs.nextUid))
    && a.jobs.finished == a.sky.finished && Passed(a.sky, b.sky, a.jobs.jobs)
    && DaemonSets.Tending(a.daemonSets, b.daemonSets, owner, spec)
    && DaemonSets.Identified(a.daemonSets, b.daemonSets, a.jobs.nextUid, b.jobs.nextUid)
    && DaemonSets.JunkCount(b.daemonSets, spec) <= DaemonSets.JunkCount(a.daemonSets, spec)
    && (ok ==> DaemonSets.AllCurrent(b.daemonSets, owner, spec))
    && (ok && CSI_DAEMON_SET in a.daemonSets ==> DaemonSets.SameCsi(a.daemonSets, b.daemonSets))
    && (DaemonSets.AllCurrent(a.daemonSets, owner, spec) ==> Idle(a, b))
    && (a.sky.events == [] ==>
          && (ok <==> DaemonSets.JunkCount(a.daemonSets, spec) == 0)
          && (!ok ==> DaemonSets.JunkCount(b.daemonSets, spec) < DaemonSets.JunkCount(a.daemonSets, spec)))
  }

  ghost predicate PoolsRun(spec: Spec, a: Store, b: Store, ok: bool) {
    && b == a.(sky := b.sky, view := b.view, jobs := b.jobs) && Later(a.sky, b.sky) && JobsAdvance(a.jobs, b.jobs)
    && NoGroundLost(a.view, b.view, PairsWanted(spec, a.daemonSets, a.pods))
    && Unmounting(spec, a, b.view.deployments, b, ok)
    && (ok ==> Converged(b.view, PairsWanted(spec, a.daemonSets, a.pods)))
    && (AtRest(a.view, PairsWanted(spec, a.daemonSets, a.pods)) ==> Idle(a, b))
    && (a.sky.events == [] && UsedNodes(a.daemonSets, a.pods) <= a.sky.nodes ==> ok)
  }

  lemma DaemonSetsFailed(spec: Spec, owner: string, a: Store, b: Store)
    requires DaemonSetsRun(spec, owner, a, b, false)
    ensures WorkloadsRun(spec, owner, a, b, false)
  {
    hide Uids, Obliging, Unmounting, DaemonSets.Tending, NoGroundLost, AtRest, JobsAdvance, WellLogged, UsedNodes,
      DaemonSets.AllCurrent, DaemonSets.JunkCount, DaemonSets.Housed;
    StillIdentified(a.daemonSets, b.daemonSets, a.jobs.nextUid, b.jobs.nextUid);
    FinishedLater(a.sky, b.sky, a.jobs.jobs);
    WaitingAdvances(a.jobs, b.jobs);
    NothingLost(a.view, b.view, PairsWanted(spec, b.daemonSets, b.pods));
    NothingToUnmount(spec, a, b, false);
    if HousedIn(a) {
      DaemonSets.StillHoused(a.daemonSets, b.daemonSets, b.pods, a.sky.nodes, a.jobs.nextUid, b.jobs.nextUid);
    }
  }

  lemma WorkloadsThrough(spec: Spec, owner: string, a: Store, b: Store, c: Store, ok: bool)
    requires DaemonSetsRun(spec, owner, a, b, true) && PoolsRun(spec, b, c, ok)
    ensures WorkloadsRun(spec, owner, a, c, ok)
  {
    hide Uids, Obliging, Unmounting, DaemonSets.Tending, NoGroundLost, Converged, AtRest, JobsAdvance, WellLogged,
      UsedNodes, DaemonSets.AllCurrent, DaemonSets.Identified, DaemonSets.JunkCount, DaemonSets.Housed, WantedPairs;
    StillIdentified(a.daemonSets, b.daemonSets, a.jobs.nextUid, b.jobs.nextUid);
    FinishedLater(a.sky, b.sky, a.jobs.jobs);
    WaitingAdvances(a.jobs, b.jobs);
    JobsAdvanceTransitive(a.jobs, b.jobs, c.jobs);
    UidsGrow(b.jobs, c.jobs);
    StillIdentifiedLater(a.daemonSets, b.daemonSets, a.jobs.nextUid, b.jobs.nextUid, c.jobs.nextUid);
    StillObliging(a.sky, b.sky);
    UnmountedSince(spec, a, b, c.view.deployments, c, ok);
    NothingLost(a.view, b.view, PairsWanted(spec, b.daemonSets, b.pods));
    if HousedIn(a) {
      DaemonSets.StillHoused(a.daemonSets, b.daemonSets, b.pods, a.sky.nodes, a.jobs.nextUid, b.jobs.nextUid);
    }
    if DaemonSets.Housed(b.daemonSets, b.pods, a.sky.nodes, b.jobs.nextUid) {
      HousedUsed(b.daemonSets, b.pods, a.sky.nodes, b.jobs.nextUid, c.jobs.nextUid);
    }
  }

  method ReconcileWorkloads(r: Client, spec: Spec) returns (err: Option<Error>)
    requires WellLogged(JobsOf(r)) && r.sky.steady <= r.sky.nodes
    modifies r`sky, r`daemonSets, r`jobs, r`writes, r`nextUid, r`log, r`refused, r`deployments, r`claims, r`classes
    ensures WorkloadsRun(spec, r.name, old(StoreOf(r)), StoreOf(r), err.None?)
  {
    hide DaemonSets.Tending, AllCleanedUp, MadeForDeleted, OneLost, LoneRun, Later, CreateRequests, Uids, Obliging,
      WantedPairs, NoGroundLost, Converged, AtRest, JobsAdvance, WellLogged, UsedNodes, DaemonSets.AllCurrent,
      DaemonSets.Identified, DaemonSets.JunkCount, WorkloadsRun;
    ghost var a := StoreOf(r);
    err := DaemonSets.ReconcileDaemonSets(r, spec);
    ghost var b := StoreOf(r);
    assert DaemonSetsRun(spec, r.name, a, b, err.None?);
    if err.Some? {
      DaemonSetsFailed(spec, r.name, a, b);
      return;
    }
    StillIdentified(a.daemonSets, b.daemonSets, a.jobs.nextUid, b.jobs.nextUid);
    WaitingRecords(a, b);
    LaterMeans(a.sky, b.sky);
    err := ReconcileStoragePools(r, spec);
    assert PoolsRun(spec, b, StoreOf(r), err.None?);
    WorkloadsThrough(spec, r.name, a, b, StoreOf(r), err.None?);
  }

  lemma WaitingRecords(a: Store, b: Store)
    requires Passed(a.sky, b.sky, a.jobs.jobs) && a.jobs.finished == a.sky.finished && a.jobs.nextUid <= b.jobs.nextUid
    requires b.jobs == a.jobs.(finished := b.sky.finished, nextUid := b.jobs.nextUid)
    ensures WellLogged(a.jobs) ==> WellLogged(b.jobs)
  {
    WaitingAdvances(a.jobs, b.jobs);
  }

  lemma FinishedLater(a: Sky, b: Sky, jobs: map<string, Job>)
    requires Passed(a, b, jobs)
    ensures a.finished <= b.finished <= a.finished + Uids(jobs)
  {
  }

  /** A completed run removes all pool deployments exactly when no node ran a live CSI pod when it
      began. That covers every run that recreates the CSI daemon set: the new one has no pods yet, so the
      deployments go, to come back once its pods run. A daemon set that was there keeps its nodes. */
  lemma PoolsEmptyIffUnused(spec: Spec, owner: string, a: Store, b: Store)
    requires WorkloadsRun(spec, owner, a, b, true) && HousedIn(a)
    requires exists p :: p in spec.storagePools && p.template.Some?
    requires Unclaimed(b.view.deployments, PairsWanted(spec, b.daemonSets, b.pods))
    ensures ManagedOf(b.view.deployments) == map[] <==> UsedNodes(a.daemonSets, a.pods) == {}
    ensures CSI_DAEMON_SET !in a.daemonSets ==> CSI_DAEMON_SET in b.daemonSets && ManagedOf(b.view.deployments) == map[]
  {
    hide Managed, DaemonSets.Housed, DaemonSets.Identified, DaemonSets.AllCurrent, DaemonSets.JunkCount, Converged,
      AtRest, NoGroundLost, JobsAdvance, Unclaimed, UsedNodes, WantedPairs;
    var used := UsedNodes(a.daemonSets, a.pods);
    DaemonSets.StillHoused(a.daemonSets, b.daemonSets, a.pods, a.sky.nodes, a.jobs.nextUid, b.jobs.nextUid);
    AbsentIsUnused(a.daemonSets, b.daemonSets, a.pods, owner, spec);
    assert UsedNodes(b.daemonSets, b.pods) == used;
    NoneIffNoPairs(b.view, WantedPairs(spec, used));
    PairsIffNodes(spec, used);
  }

  lemma AbsentIsUnused(a: map<string, DaemonSet>, b: map<string, DaemonSet>, pods: map<string, Pod>, owner: string,
                       spec: Spec)
    ensures CSI_DAEMON_SET !in a ==> UsedNodes(a, pods) == {}
    ensures DaemonSets.AllCurrent(b, owner, spec) ==> CSI_DAEMON_SET in b
  {
  }

  lemma NoneIffNoPairs(v: View, pairs: set<Pair>)
    requires Converged(v, pairs) && Unclaimed(v.deployments, pairs)
    ensures ManagedOf(v.deployments) == map[] <==> pairs == {}
  {
    hide Managed, Converged, Unclaimed, Serves, NameOf;
    ExactConvergence(v, pairs);
    if pr :| pr in pairs { assert NameOf(pr) in NamesOf(pairs); }
  }

  lemma PairsIffNodes(spec: Spec, nodes: set<string>)
    requires exists p :: p in spec.storagePools && p.template.Some?
    ensures WantedPairs(spec, nodes) == {} <==> nodes == {}
  {
    var p :| p in spec.storagePools && p.template.Some?;
    if n :| n in nodes { assert Pair(p, n) in WantedPairs(spec, nodes); }
  }

  lemma StillIdentifiedLater(a: map<string, DaemonSet>, b: map<string, DaemonSet>, from: nat, to: nat, later: nat)
    requires DaemonSets.Identified(a, b, from, to) && to <= later
    ensures DaemonSets.Identified(a, b, from, later)
  {
  }

  lemma StillIdentified(a: map<string, DaemonSet>, b: map<string, DaemonSet>, from: nat, to: nat)
    requires DaemonSets.Identified(a, b, from, to)
    ensures from <= to
  {
  }

  lemma UidsGrow(a: JobView, b: JobView)
    requires JobsAdvance(a, b)
    ensures a.nextUid <= b.nextUid
  {
  }

  lemma HousedUsed(daemonSets: map<string, DaemonSet>, pods: map<string, Pod>, nodes: set<string>, from: nat, to: nat)
    requires DaemonSets.Housed(daemonSets, pods, nodes, from) && from <= to
    ensures UsedNodes(daemonSets, pods) <= nodes && DaemonSets.Housed(daemonSets, pods, nodes, to)
  {
  }

  // ------------------------------------------------- service accounts and ownerless objects

  const Tracked := ServiceAccounts.Accounts + Ownerless

  /** What a run does to the objects: accounts of earlier versions may go, and the tracked ones are
      as they were or as the spec wants them. */
  ghost predicate ObjectsMoved(env: Setting, owner: string, a: map<Key, Tree>, b: map<Key, Tree>, finished: bool) {
    exists gone :: ServiceAccounts.Gone(a, owner, gone, finished) && Phase(env, a - gone, b, Tracked, finished)
  }

  lemma ObjectsStay(env: Setting, owner: string, a: map<Key, Tree>)
    ensures ObjectsMoved(env, owner, a, a, false)
  {
    assert a - {} == a;
    Untouched(env, a, Tracked);
    assert ServiceAccounts.Gone(a, owner, {}, false) && Phase(env, a - {}, a, Tracked, false);
  }

  lemma TrackedApart()
    ensures ServiceAccounts.Accounts !! Ownerless
    ensures forall key | key in Ownerless :: !key.kind.ServiceAccount?
    ensures forall key | key in ServiceAccounts.Accounts :: key.name == LEGACY_ACCOUNT || key.name == CSI_ACCOUNT
  {
  }

  lemma SameMendable(env: Setting, a: map<Key, Tree>, b: map<Key, Tree>, keys: set<Key>)
    requires forall key | key in keys :: Lookup(b, key) == Lookup(a, key)
    ensures Mendable(env, b, keys) <==> Mendable(env, a, keys)
  {
  }

  /** Accounts of earlier versions are no ownerless objects, and no accounts in use. */
  lemma DuplicatesAside(env: Setting, owner: string, a: map<Key, Tree>, gone: set<Key>)
    requires gone <= ServiceAccounts.Duplicates(a, owner)
    ensures Mendable(env, a - gone, Ownerless) <==> Mendable(env, a, Ownerless)
    ensures Mendable(env, a - gone, ServiceAccounts.Accounts) <==> Mendable(env, a, ServiceAccounts.Accounts)
  {
    hide Mendable, Ownerless, ServiceAccounts.Accounts, ServiceAccounts.OwnedBy;
    TrackedApart();
    forall key | key in gone ensures key !in Ownerless && key !in ServiceAccounts.Accounts { }
    SameMendable(env, a, a - gone, Ownerless);
    SameMendable(env, a, a - gone, ServiceAccounts.Accounts);
  }

  lemma AccountsDone(env: Setting, a: map<Key, Tree>, b: map<Key, Tree>, c: map<Key, Tree>)
    requires Phase(env, a, b, ServiceAccounts.Accounts, true) && Phase(env, b, c, Ownerless, false)
    ensures ServiceAccounts.HasAccounts(c, env.spec)
  {
    hide Ownerless, Aim, InShape;
    TrackedApart();
    forall key | key in ServiceAccounts.Accounts
      ensures Attained(env, a, b, key) && Lookup(c, key) == Lookup(b, key) { }
    assert ServiceAccounts.Account(CSI_ACCOUNT) in ServiceAccounts.Accounts
           && ServiceAccounts.Account(LEGACY_ACCOUNT) in ServiceAccounts.Accounts;
  }

  lemma PhaseUnfinished(env: Setting, a: map<Key, Tree>, b: map<Key, Tree>, keys: set<Key>, finished: bool)
    requires Phase(env, a, b, keys, finished)
    ensures Phase(env, a, b, keys, false)
  {
  }

  /** Of daemon sets and pools, only what ran under accounts that were missing goes. */
  ghost predicate Restarting(objects: map<Key, Tree>, spec: Spec, a: Store, b: Store) {
    && ServiceAccounts.OnlyRestarts(ServiceAccounts.Absent(objects, spec), a.daemonSets, b.daemonSets,
                                    a.view.deployments,
                                    b.view.deployments)
    && b.view == a.view.(deployments := b.view.deployments, writes := b.view.writes)
  }

  /** What accounts and ownerless objects go through, completed or not. */
  ghost predicate ObjectsRun(env: Setting, owner: string, a: Store, b: Store, ok: bool) {
    && Passed(a.sky, b.sky, a.jobs.jobs) && b.jobs == a.jobs.(finished := b.sky.finished) && b.pods == a.pods
    && ObjectsMoved(env, owner, a.objects, b.objects, ok)
    && Restarting(a.objects, env.spec, a, b)
    && (ok ==> ServiceAccounts.HasAccounts(b.objects, env.spec))
    && (ServiceAccounts.HasAccounts(a.objects, env.spec) ==>
          b.daemonSets == a.daemonSets && b.view == a.view.(writes := b.view.writes)
          && Quiet(a.sky, b.sky, a.jobs.jobs))
    && (ServiceAccounts.Duplicates(a.objects, owner) == {} && Resting(env, a.objects, Tracked) ==>
          b.objects == a.objects && b.view.writes == a.view.writes)
    && (a.sky.events == [] ==> (ok <==> Mendable(env, a.objects, Tracked)))
  }

  ghost predicate AccountsRun(env: Setting, owner: string, a: Store, b: Store, ok: bool) {
    && Passed(a.sky, b.sky, a.jobs.jobs) && b.jobs == a.jobs.(finished := b.sky.finished) && b.pods == a.pods
    && (exists gone :: ServiceAccounts.Gone(a.objects, owner, gone, ok)
                       && Phase(env, a.objects - gone, b.objects, ServiceAccounts.Accounts, ok))
    && Restarting(a.objects, env.spec, a, b)
    && (ServiceAccounts.HasAccounts(a.objects, env.spec) ==>
          b.daemonSets == a.daemonSets && b.view == a.view.(writes := b.view.writes)
          && Quiet(a.sky, b.sky, a.jobs.jobs))
    && (ServiceAccounts.Duplicates(a.objects, owner) == {} && Resting(env, a.objects, ServiceAccounts.Accounts) ==>
          b.objects == a.objects && b.view.writes == a.view.writes)
    && (a.sky.events == [] ==> (ok <==> Mendable(env, a.objects, ServiceAccounts.Accounts)))
  }

  ghost predicate OwnerlessRun(env: Setting, a: Store, b: Store, ok: bool) {
    && b == a.(sky := b.sky, objects := b.objects, jobs := a.jobs.(finished := b.sky.finished),
            view := a.view.(writes := b.view.writes))
    && Quiet(a.sky, b.sky, a.jobs.jobs) && Phase(env, a.objects, b.objects, Ownerless, ok)
    && (Resting(env, a.objects, Ownerless) ==> b.objects == a.objects && b.view.writes == a.view.writes)
    && (a.sky.events == [] ==> (ok <==> Mendable(env, a.objects, Ownerless)))
  }

  lemma AccountsFailed(env: Setting, owner: string, a: Store, b: Store)
    requires AccountsRun(env, owner, a, b, false)
    ensures ObjectsRun(env, owner, a, b, false)
  {
    hide Phase, Resting, Mendable, Passed, Ownerless, ServiceAccounts.Accounts, ServiceAccounts.Duplicates,
      ServiceAccounts.HasAccounts;
    var gone :| ServiceAccounts.Gone(a.objects, owner, gone, false)
                && Phase(env, a.objects - gone, b.objects, ServiceAccounts.Accounts, false);
    Stop(env, a.objects - gone, b.objects, ServiceAccounts.Accounts, Tracked, false);
    TrackedSplit(env, a.objects);
  }

  lemma ObjectsThrough(env: Setting, owner: string, a: Store, b: Store, c: Store, ok: bool)
    requires AccountsRun(env, owner, a, b, true) && OwnerlessRun(env, b, c, ok)
    ensures ObjectsRun(env, owner, a, c, ok)
  {
    hide Phase, Resting, Mendable, Passed, Ownerless, ServiceAccounts.Accounts, ServiceAccounts.Duplicates,
      ServiceAccounts.HasAccounts, Uids, Obliging;
    TrackedApart();
    var gone :| ServiceAccounts.Gone(a.objects, owner, gone, true)
                && Phase(env, a.objects - gone, b.objects, ServiceAccounts.Accounts, true);
    assert ServiceAccounts.Gone(a.objects, owner, gone, ok);
    PassedTransitive(a.sky, b.sky, c.sky, a.jobs.jobs);
    DuplicatesAside(env, owner, a.objects, gone);
    TrackedSplit(env, a.objects);
    PhaseUnfinished(env, b.objects, c.objects, Ownerless, ok);
    AccountsDone(env, a.objects - gone, b.objects, c.objects);
    Continue(env, a.objects - gone, b.objects, c.objects, ServiceAccounts.Accounts, Ownerless, ok);
    PhaseApart(env, a.objects - gone, b.objects, ServiceAccounts.Accounts, Ownerless, true);
  }


  method ReconcileObjects(r: Client, spec: Spec) returns (err: Option<Error>)
    modifies r`sky, r`objects, r`writes, r`daemonSets, r`deployments
    ensures ObjectsRun(SettingOf(r, spec), r.name, old(StoreOf(r)), StoreOf(r), err.None?)
  {
    hide Uids, Obliging, Phase, Resting, Mendable, ServiceAccounts.Duplicates, ServiceAccounts.HasAccounts, Passed,
      Ownerless, ServiceAccounts.Accounts, ObjectsRun;
    ghost var env, a := SettingOf(r, spec), StoreOf(r);
    err := ServiceAccounts.ReconcileServiceAccounts(r, spec);
    ghost var b := StoreOf(r);
    FinishedLater(a.sky, b.sky, r.jobs);
    assert AccountsRun(env, r.name, a, b, err.None?);
    if err.Some? {
      AccountsFailed(env, r.name, a, b);
      return;
    }
    err := ReconcileOwnerless(r, spec);
    ObjectsThrough(env, r.name, a, b, StoreOf(r), err.None?);
  }

  lemma TrackedSplit(env: Setting, a: map<Key, Tree>)
    ensures Mendable(env, a, Tracked) <==> Mendable(env, a, ServiceAccounts.Accounts) && Mendable(env, a, Ownerless)
    ensures Resting(env, a, Tracked) <==> Resting(env, a, ServiceAccounts.Accounts) && Resting(env, a, Ownerless)
  {
  }

  // -------------------------------------------------------------------------- all of it

  /** Daemon sets and pools before anything was restarted; all says that they were gone through to the end,
      and so they were if any object changed. */
  ghost predicate Passing(env: Setting, owner: string, a: Store, b: Store, daemonSets: map<string, DaemonSet>,
                          view: View, all: bool) {
    && DaemonSets.Tending(a.daemonSets, daemonSets, owner, env.spec)
    && NoGroundLost(a.view, view, PairsWanted(env.spec, daemonSets, a.pods))
    && (all || b.objects != a.objects ==>
          DaemonSets.AllCurrent(daemonSets, owner, env.spec)
          && Converged(view, PairsWanted(env.spec, daemonSets, a.pods)))
    && Unmounting(env.spec, a, view.deployments, b, all)

    && ServiceAccounts.OnlyRestarts(ServiceAccounts.Absent(a.objects, env.spec), daemonSets, b.daemonSets,
                                    view.deployments,
                                    b.view.deployments)
    && b.view == view.(deployments := b.view.deployments, writes := b.view.writes)
  }

  /** What a run does to daemon sets and pools: it tends both daemon sets, moves the pools towards what the
      spec wants, unmounts what it deletes, and then restarts what ran under a missing account. */
  ghost predicate Tidy(env: Setting, owner: string, a: Store, b: Store, all: bool) {
    exists daemonSets, view :: Passing(env, owner, a, b, daemonSets, view, all)
  }

  /** What a run does to everything, finished or cut off anywhere. */
  ghost predicate Ran(env: Setting, owner: string, a: Store, b: Store) {
    && Later(a.sky, b.sky) && JobsAdvance(a.jobs, b.jobs) && b.pods == a.pods && Tidy(env, owner, a, b, false)
    && ObjectsMoved(env, owner, a.objects, b.objects, false)
  }

  lemma TidyAnyway(env: Setting, owner: string, a: Store, b: Store, all: bool)
    requires Tidy(env, owner, a, b, all)
    ensures Tidy(env, owner, a, b, false) && ViewMoved(a.view, b.view)
  {
    hide DaemonSets.AllCurrent, Converged, DaemonSets.Tending, NoGroundLost, AllCleanedUp, MadeForDeleted, OneLost,
      PairsWanted, ServiceAccounts.Absent;
    var daemonSets, view :| Passing(env, owner, a, b, daemonSets, view, all);
    assert Passing(env, owner, a, b, daemonSets, view, false);
    assert Restarted(view, b.view);
  }

  /** Nothing of it changes later but jobs. */
  lemma TidyLater(env: Setting, owner: string, a: Store, b: Store, c: Store, all: bool)
    requires Tidy(env, owner, a, b, all) && JobsAdvance(b.jobs, c.jobs) && c.jobs.log == b.jobs.log
    requires WellLogged(b.jobs) && c.sky.steady <= b.sky.steady
    requires c.objects == b.objects
    requires c.daemonSets == b.daemonSets && c.view == b.view.(writes := c.view.writes)
    ensures Tidy(env, owner, a, c, all)
  {
    hide DaemonSets.AllCurrent, Converged, DaemonSets.Tending, NoGroundLost, Unmounting, PairsWanted,
      ServiceAccounts.Absent, JobsAdvance, WellLogged, ServiceAccounts.OnlyRestarts;
    var daemonSets, view :| Passing(env, owner, a, b, daemonSets, view, all);
    UnmountedStays(env.spec, a, view.deployments, b, c, all);
    assert Passing(env, owner, a, c, daemonSets, view, all);
  }

  /** And nothing of it changed before. */
  lemma TidySince(env: Setting, owner: string, a: Store, b: Store, c: Store, all: bool)
    requires Tidy(env, owner, b, c, all) && b.pods == a.pods && b.daemonSets == a.daemonSets && b.objects == a.objects
    requires b.view == a.view.(writes := b.view.writes) && b.jobs.log == a.jobs.log && Later(a.sky, b.sky)
    ensures Tidy(env, owner, a, c, all)
  {
    hide DaemonSets.AllCurrent, DaemonSets.Tending, NoGroundLost, Unmounting, PairsWanted, ServiceAccounts.Absent,
      Later, Obliging, ServiceAccounts.OnlyRestarts;
    var daemonSets, view :| Passing(env, owner, b, c, daemonSets, view, all);
    StillObliging(a.sky, b.sky);
    UnmountedSince(env.spec, a, b, view.deployments, c, all);
    NothingLost(a.view, b.view, PairsWanted(env.spec, daemonSets, a.pods));
    assert Passing(env, owner, a, c, daemonSets, view, all);
  }

  lemma TidyAlready(env: Setting, owner: string, a: Store, b: Store)
    requires b.objects == a.objects
    requires b.daemonSets == a.daemonSets && b.view == a.view.(writes := b.view.writes) && b.jobs.log == a.jobs.log
    ensures Tidy(env, owner, a, b, false)
  {
    hide DaemonSets.AllCurrent, Converged, Unmounting, PairsWanted, ServiceAccounts.Absent, NoGroundLost,
      DaemonSets.LegacyDaemonSet, DaemonSets.CsiDaemonSet;
    NothingToUnmount(env.spec, a, b, false);
    NothingLost(a.view, a.view, PairsWanted(env.spec, a.daemonSets, a.pods));
    assert Passing(env, owner, a, b, a.daemonSets, a.view, false);
  }


  /** Nothing managed is missing, drifted, unwanted or left over. */
  ghost predicate AllAtRest(env: Setting, owner: string, s: Store) {
    && DaemonSets.AllCurrent(s.daemonSets, owner, env.spec)
    && AtRest(s.view, PairsWanted(env.spec, s.daemonSets, s.pods))
    && ServiceAccounts.Duplicates(s.objects, owner) == {} && Resting(env, s.objects, Tracked)
  }

  /** The number of wanted daemon sets and accounts that keep runs from completing. */
  ghost function Obstacles(s: Store, spec: Spec): nat {
    DaemonSets.JunkCount(s.daemonSets, spec) + (if ServiceAccounts.HasAccounts(s.objects, spec) then 0 else 1)
  }

  /** Live CSI pods sit on nodes that exist, and no merge fails. */
  ghost predicate Curable(env: Setting, s: Store) {
    HousedIn(s) && Mendable(env, s.objects, Tracked)
  }

  /** No job is left once as many deployments as scheduled CSI pods are there and all jobs completed. */
  ghost predicate JobsGone(s: Store) {
    s.jobs.jobs == map[] || |ManagedOf(s.view.deployments)| != ReadinessOf(s.sky, CSI_DAEMON_SET).desired
    || !AllFinished(s.jobs)
  }

  /** An update in a calm cluster: when it fails an obstacle is gone, and else all of them and the jobs that
      are through. */
  ghost predicate Heals(env: Setting, owner: string, a: Store, b: Store, failed: bool) {
    && ObjectsMoved(env, owner, a.objects, b.objects, false) && (!failed ==> JobsGone(b))
    && (Curable(env, a) ==>
          && HousedIn(b)
          && (if failed then Obstacles(b, env.spec) < Obstacles(a, env.spec) else Obstacles(b, env.spec) == 0))
  }

  /** What everything managed goes through in one run, completed or not. */
  ghost predicate ManagedRun(env: Setting, owner: string, a: Store, b: Store, ok: bool) {
    && Ran(env, owner, a, b) && Tidy(env, owner, a, b, ok) && ObjectsMoved(env, owner, a.objects, b.objects, ok)

    && (ok ==> ServiceAccounts.HasAccounts(b.objects, env.spec))
    && (ok && ServiceAccounts.HasAccounts(a.objects, env.spec) ==>
          DaemonSets.AllCurrent(b.daemonSets, owner, env.spec)
          && Converged(b.view, PairsWanted(env.spec, b.daemonSets, b.pods)))
    && (a.sky.events == [] && Curable(env, a) ==>
          && HousedIn(b) && (ok <==> DaemonSets.JunkCount(a.daemonSets, env.spec) == 0)
          && (if ok then Obstacles(b, env.spec) == 0 else Obstacles(b, env.spec) < Obstacles(a, env.spec)))
    && (AllAtRest(env, owner, a) ==> Idle(a, b))
  }

  lemma WorkloadsFailed(env: Setting, owner: string, a: Store, b: Store)
    requires WorkloadsRun(env.spec, owner, a, b, false)
    ensures ManagedRun(env, owner, a, b, false)
  {
    hide ObjectsMoved, JobsAdvance, NoGroundLost, Converged, AtRest, DaemonSets.AllCurrent, DaemonSets.JunkCount,
      DaemonSets.Housed, Resting, PairsWanted, Mendable, DaemonSets.Tending, Unmounting, ServiceAccounts.Absent;
    ObjectsStay(env, owner, a.objects);
    assert Passing(env, owner, a, b, b.daemonSets, b.view, false);

  }

  lemma RestartingKeeps(env: Setting, a: Store, b: Store)
    requires Restarting(a.objects, env.spec, a, b)
    ensures Kept(b.daemonSets, a.daemonSets)
  {
  }

  lemma TidyThrough(env: Setting, owner: string, a: Store, b: Store, c: Store)
    requires DaemonSets.Tending(a.daemonSets, b.daemonSets, owner, env.spec) && b.pods == a.pods
    requires NoGroundLost(a.view, b.view, PairsWanted(env.spec, b.daemonSets, b.pods)) && b.objects == a.objects
    requires DaemonSets.AllCurrent(b.daemonSets, owner, env.spec)
             && Converged(b.view, PairsWanted(env.spec, b.daemonSets, b.pods))
    requires Unmounting(env.spec, a, b.view.deployments, b, true) && Restarting(b.objects, env.spec, b, c)
    requires JobsAdvance(b.jobs, c.jobs) && c.jobs.log == b.jobs.log && WellLogged(b.jobs) && Later(b.sky, c.sky)
    ensures Tidy(env, owner, a, c, true)
  {
    hide DaemonSets.AllCurrent, Converged, DaemonSets.Tending, NoGroundLost, Unmounting, PairsWanted,
      ServiceAccounts.Absent, JobsAdvance, WellLogged, ServiceAccounts.OnlyRestarts, Later;
    LaterMeans(b.sky, c.sky);
    UnmountedStays(env.spec, a, b.view.deployments, b, c, true);
    assert Passing(env, owner, a, c, b.daemonSets, b.view, true);
  }

  lemma ManagedThrough(env: Setting, owner: string, a: Store, b: Store, c: Store, ok: bool)
    requires WorkloadsRun(env.spec, owner, a, b, true) && ObjectsRun(env, owner, b, c, ok)
             && b.jobs.finished == b.sky.finished && WellLogged(a.jobs)
    ensures ManagedRun(env, owner, a, c, ok)
  {
    hide Tidy, Restarting, Unmounting, DaemonSets.Tending, WellLogged, Later, DaemonSets.Identified, Uids, Obliging,
      ObjectsMoved, JobsAdvance, NoGroundLost, Converged, AtRest, DaemonSets.AllCurrent, DaemonSets.JunkCount,
      DaemonSets.Housed, Resting, PairsWanted, Mendable, Tracked, ServiceAccounts.Duplicates,
      ServiceAccounts.HasAccounts;
    FinishedLater(b.sky, c.sky, b.jobs.jobs);
    WaitingAdvances(b.jobs, c.jobs);
    JobsAdvanceTransitive(a.jobs, b.jobs, c.jobs);
    MovedUnfinished(env, owner, b.objects, c.objects, ok);
    AdvanceKeepsRecord(a.jobs, b.jobs);
    TidyThrough(env, owner, a, b, c);
    TidyAnyway(env, owner, a, c, true);
    LaterTransitive(a.sky, b.sky, c.sky);
    CalmIsStill(a.sky, b.sky);
    CalmIsStill(b.sky, c.sky);
    RestartingKeeps(env, b, c);

    ConvergedAnyway(b.view, c.view.writes, PairsWanted(env.spec, b.daemonSets, b.pods));
    FewerDaemonSets(b.daemonSets, c.daemonSets, b.pods, b.sky.nodes, b.jobs.nextUid, env.spec);
    if AllAtRest(env, owner, a) { RestingHasAccounts(env, a.objects); }
  }

  method ReconcileManaged(r: Client, spec: Spec) returns (err: Option<Error>)
    requires WellLogged(JobsOf(r)) && r.sky.steady <= r.sky.nodes
    modifies r`sky, r`daemonSets, r`jobs, r`writes, r`nextUid, r`log, r`refused, r`deployments, r`claims, r`classes,
             r`objects
    ensures ManagedRun(SettingOf(r, spec), r.name, old(StoreOf(r)), StoreOf(r), err.None?)
  {
    hide WorkloadsRun, ObjectsRun, ManagedRun;
    ghost var env, a := SettingOf(r, spec), StoreOf(r);
    err := ReconcileWorkloads(r, spec);
    ghost var b := StoreOf(r);
    if err.Some? {
      WorkloadsFailed(env, r.name, a, b);
      return;
    }
    err := ReconcileObjects(r, spec);
    ManagedThrough(env, r.name, a, b, StoreOf(r), err.None?);
  }

  lemma RestingHasAccounts(env: Setting, a: map<Key, Tree>)
    requires Resting(env, a, Tracked)
    ensures ServiceAccounts.HasAccounts(a, env.spec)
  {
    TrackedSplit(env, a);
    hide Ownerless, Aim;
    assert ServiceAccounts.Account(CSI_ACCOUNT) in ServiceAccounts.Accounts
           && ServiceAccounts.Account(LEGACY_ACCOUNT) in ServiceAccounts.Accounts;
  }

  lemma ConvergedAnyway(v: View, writes: nat, pairs: set<Pair>)
    ensures Converged(v, pairs) ==> Converged(v.(writes := writes), pairs)
  {
  }

  lemma FewerDaemonSets(a: map<string, DaemonSet>, b: map<string, DaemonSet>, pods: map<string, Pod>,
                        nodes: set<string>, uid: nat, spec: Spec)
    requires Kept(b, a)
    ensures DaemonSets.JunkCount(b, spec) <= DaemonSets.JunkCount(a, spec)
    ensures DaemonSets.Housed(a, pods, nodes, uid) ==> DaemonSets.Housed(b, pods, nodes, uid)
  {
  }

  lemma MovedUnfinished(env: Setting, owner: string, a: map<Key, Tree>, b: map<Key, Tree>, finished: bool)
    requires ObjectsMoved(env, owner, a, b, finished)
    ensures ObjectsMoved(env, owner, a, b, false)
  {
    var gone :| ServiceAccounts.Gone(a, owner, gone, finished) && Phase(env, a - gone, b, Tracked, finished);
    PhaseUnfinished(env, a - gone, b, Tracked, finished);
    assert ServiceAccounts.Gone(a, owner, gone, false);
  }

  /** At rest there is no obstacle and nothing that cannot be merged. */
  lemma RestIsClear(env: Setting, owner: string, s: Store)
    requires AllAtRest(env, owner, s)
    ensures Mendable(env, s.objects, Tracked) && Obstacles(s, env.spec) == 0
    ensures CSI_DAEMON_SET in s.daemonSets && (IsLegacy(env.spec) ==> APP in s.daemonSets)
  {
    RestingHasAccounts(env, s.objects);
    RestingMends(env, s.objects, Tracked);
  }

  lemma RestingMends(env: Setting, a: map<Key, Tree>, keys: set<Key>)
    requires Resting(env, a, keys)
    ensures Mendable(env, a, keys)
  {
  }

  lemma CurrentIsDeployed(m: map<string, DaemonSet>, owner: string, spec: Spec)
    requires DaemonSets.AllCurrent(m, owner, spec)
    ensures CSI_DAEMON_SET in m && (IsLegacy(spec) ==> APP in m)
  {
  }
}
