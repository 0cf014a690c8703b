// One run of the operator (Reconcile and its parts in controller.go).

module Controller {
  import opened CustomResource
  import opened Conditions
  import opened Cluster
  import opened Names
  import opened Cleanup
  import opened StoragePools
  import opened Lifecycle
  import opened Holdings
  import opened Convergence
  import DaemonSets
  import ServiceAccounts
  import Objects
  import PoolStatuses
  import Teardown
  import Json
  import Versions

  const COMPLETE := "Complete"
  const AVAILABLE := "Application Available"
  const DEGRADED := "Degraded"
  const NOT_READY := "CR is deployed but DaemonSets are not ready"
  const POOLS_NOT_READY := "StoragePoolNotReady"
  const RECONCILE_FAILED := "Reconcile Failed"
  const UNABLE := "Unable to successfully reconcile: "

  // -------------------------------------------------------------------------- readiness

  predicate Ready(s: Readiness) {
    s.ready > 0 && s.ready >= s.desired
  }

  /** The daemon sets the spec calls for are there. */
  predicate Deployed(daemonSets: map<string, DaemonSet>, spec: Spec) {
    CSI_DAEMON_SET in daemonSets && (IsLegacy(spec) ==> APP in daemonSets)
  }

  predicate AllReady(sky: Sky, spec: Spec) {
    (IsLegacy(spec) ==> Ready(ReadinessOf(sky, APP))) && Ready(ReadinessOf(sky, CSI_DAEMON_SET))
  }

  /** At least one pod of a daemon set is ready, and as many as are scheduled. */
  predicate PodsReady(readiness: map<string, Readiness>, name: string) {
    name in readiness && 0 < readiness[name].ready && readiness[name].desired <= readiness[name].ready
  }

  /** What it takes to be ready. */
  lemma ReadyMeans(sky: Sky, spec: Spec)
    ensures AllReady(sky, spec) <==>
            && PodsReady(sky.readiness, "hostpath-provisioner-csi")
            && (spec.pathConfig.Some? ==> PodsReady(sky.readiness, "hostpath-provisioner"))
  {
  }

  method GetDaemonSet(r: Client, name: string) returns (err: Option<Error>, status: Readiness)
    modifies r`sky
    ensures Quiet(old(r.sky), r.sky, r.jobs)
    ensures err.None? ==> name in r.daemonSets && status == ReadinessOf(r.sky, name)
    ensures old(r.sky.events) == [] ==> (err.None? <==> name in r.daemonSets)
  {
    var f := r.Tick();
    status := ReadinessOf(r.sky, name);
    var got := Got(r.daemonSets, name, f);
    err := if got == Ok then None else if got == NotFound then Some(Missing(name)) else Some(Request);
  }

  /** Reads both daemon sets; count is how many CSI pods there should be. */
  method CheckReady(r: Client, spec: Spec) returns (err: Option<Error>, ready: bool, count: nat)
    modifies r`sky
    ensures Quiet(old(r.sky), r.sky, r.jobs)
    ensures err.None? ==> Deployed(r.daemonSets, spec)
    ensures old(r.sky.events) == [] ==>
              && (err.None? <==> Deployed(r.daemonSets, spec))
              && (err.None? ==> ready == AllReady(r.sky, spec)
                                && count == ReadinessOf(r.sky, CSI_DAEMON_SET).desired)
    ensures old(r.sky.events) == [] && err.None? ==>
              (ready <==> PodsReady(r.sky.readiness, "hostpath-provisioner-csi")
                          && (spec.pathConfig.Some? ==> PodsReady(r.sky.readiness, "hostpath-provisioner")))

  {
    hide Uids, Obliging;
    ready, count := true, 0;
    var status;
    if IsLegacy(spec) {
      err, status := GetDaemonSet(r, APP);
      if err.Some? { return; }
      ready := Ready(status);
    }
    err, status := GetDaemonSet(r, CSI_DAEMON_SET);
    if err.Some? { return; }
    ready := ready && Ready(status);
    count := status.desired;
    ReadyMeans(r.sky, spec);

  }

  // ----------------------------------------------------------------------------- update

  function Healed(c: Resource, now: nat): Resource {
    c.(conditions := Marked(c.conditions, Healthy, COMPLETE, AVAILABLE, now))
  }

  /** The end of an update: the resource is healthy when the daemon sets are ready, and finished
      jobs are removed once there are as many deployments as CSI pods. */
  method ReportHealth(r: Client, cr: Instance, now: nat) returns (err: Option<Error>, ghost ready: bool)
    requires WellLogged(JobsOf(r))
    modifies r`sky, r`jobs, r`writes, cr
    ensures Quiet(old(r.sky), r.sky, old(r.jobs)) && JobsAdvance(old(JobsOf(r)), JobsOf(r))
    ensures cr.resource == if ready then Healed(old(cr.resource), now) else old(cr.resource)
    ensures err.None? ==> Deployed(r.daemonSets, cr.resource.spec)
    ensures old(r.sky.events) == [] ==> (err.None? <==> Deployed(r.daemonSets, cr.resource.spec))
    ensures old(r.sky.events) == [] && err.None? ==> ready == AllReady(r.sky, cr.resource.spec)
    ensures old(r.sky.events) == [] && err.None? ==>
              r.jobs == if |ManagedOf(r.deployments)| == ReadinessOf(r.sky, CSI_DAEMON_SET).desired
                           && AllFinished(old(JobsOf(r))) then map[] else old(r.jobs)
    ensures old(r.jobs) == map[] ==> JobsOf(r) == old(JobsOf(r)) && r.writes == old(r.writes)
  {
    hide COMPLETE, AVAILABLE, CSI_DAEMON_SET, APP;
    hide Uids, Obliging, JobsAdvance, WellLogged;
    NoJobsNoUids();
    ghost var v, sky := JobsOf(r), r.sky;
    ready := false;
    var available, count, requeue;
    err, available, count := CheckReady(r, cr.resource.spec);
    WaitingAdvances(v, JobsOf(r));
    if err.Some? { return; }
    ready := available;
    if available { Mark(cr, Healthy, COMPLETE, AVAILABLE, now); }
    ghost var w, sky2 := JobsOf(r), r.sky;
    err, requeue := ReconcileCleanup(r, count);
    JobsAdvanceTransitive(v, w, JobsOf(r));
    PassedTransitive(sky, sky2, r.sky, old(r.jobs));
  }

  /** An update that completed: every object is as its goal asks, and unless an account had to be
      created anew, daemon sets and pools are as the spec wants them. */
  ghost predicate Achieved(env: Objects.Setting, owner: string, a: Store, b: Store) {
    && ObjectsMoved(env, owner, a.objects, b.objects, true) && Tidy(env, owner, a, b, true)
    && (ServiceAccounts.HasAccounts(a.objects, env.spec) ==>
          DaemonSets.AllCurrent(b.daemonSets, owner, env.spec)
          && Converged(b.view, PairsWanted(env.spec, b.daemonSets, b.pods)))
  }

  /** An update of everything managed, completed or not. */
  ghost predicate UpdateRun(env: Objects.Setting, owner: string, a: Store, b: Store, ok: bool) {
    && Ran(env, owner, a, b)
    && (ok ==> Deployed(b.daemonSets, env.spec) && Achieved(env, owner, a, b))
    && (a.sky.events == [] ==> Heals(env, owner, a, b, !ok))
    && (AllAtRest(env, owner, a) && a.jobs.jobs == map[] ==> Idle(a, b))
  }

  /** The part of ReportHealth that does not concern the resource. */
  ghost predicate HealthRun(spec: Spec, a: Store, b: Store, ok: bool) {
    && b == a.(sky := b.sky, jobs := b.jobs, view := a.view.(writes := b.view.writes))
    && Quiet(a.sky, b.sky, a.jobs.jobs) && JobsAdvance(a.jobs, b.jobs) && b.jobs.log == a.jobs.log
    && (ok ==> Deployed(a.daemonSets, spec)) && (a.sky.events == [] ==> (ok <==> Deployed(a.daemonSets, spec)))
    && (a.jobs.jobs == map[] ==> b.jobs == a.jobs && b.view == a.view)
    && (a.sky.events == [] && ok ==> JobsGone(b))
  }

  lemma ManagedFailed(env: Objects.Setting, owner: string, a: Store, b: Store)
    requires ManagedRun(env, owner, a, b, false)
    ensures UpdateRun(env, owner, a, b, false)
  {
  }

  /** The last step fails in a calm cluster only if an account had to be created anew, which
      takes the daemon sets under it along. */
  lemma UpdateThrough(env: Objects.Setting, owner: string, a: Store, b: Store, c: Store, ok: bool)
    requires ManagedRun(env, owner, a, b, true) && HealthRun(env.spec, b, c, ok) && WellLogged(a.jobs)
    ensures UpdateRun(env, owner, a, c, ok)
  {
    hide Tidy, WellLogged, JobsAdvance, ObjectsMoved, AllAtRest, DaemonSets.AllCurrent, DaemonSets.JunkCount,
      ServiceAccounts.HasAccounts, Converged, PairsWanted, Objects.Mendable, Tracked, DaemonSets.Housed;
    MovedUnfinished(env, owner, a.objects, b.objects, true);
    ConvergedAnyway(b.view, c.view.writes, PairsWanted(env.spec, b.daemonSets, b.pods));
    RanRecords(env, owner, a, b);
    RanOn(env, owner, a, b, c);
    LaterMeans(b.sky, c.sky);
    TidyLater(env, owner, a, b, c, true);
    UidsGrow(b.jobs, c.jobs);
    if DaemonSets.AllCurrent(b.daemonSets, owner, env.spec) { CurrentIsDeployed(b.daemonSets, owner, env.spec); }
    if HousedIn(b) && b.sky.events == [] {
      HousedUsed(b.daemonSets, b.pods, b.sky.nodes, b.jobs.nextUid, c.jobs.nextUid);
    }
    if AllAtRest(env, owner, a) && a.jobs.jobs == map[] { IdleOn(a, b, c); }
  }

  method ReconcileUpdate(r: Client, cr: Instance, now: nat) returns (err: Option<Error>, ghost ready: bool)
    requires WellLogged(JobsOf(r)) && r.sky.steady <= r.sky.nodes
    modifies r`sky, r`daemonSets, r`jobs, r`writes, r`nextUid, r`log, r`refused, r`deployments, r`claims, r`classes,
             r`objects, cr
    ensures UpdateRun(Objects.SettingOf(r, cr.resource.spec), r.name, old(StoreOf(r)), StoreOf(r), err.None?)
    ensures cr.resource == if ready then Healed(old(cr.resource), now) else old(cr.resource)
    ensures old(r.sky.events) == [] && err.None? ==> ready == AllReady(r.sky, cr.resource.spec)
  {
    hide Uids, Obliging, UpdateRun, ManagedRun, JobsAdvance, WellLogged, AllReady, Deployed, Marked, Passed;
    ghost var env, a := Objects.SettingOf(r, cr.resource.spec), StoreOf(r);
    ready := false;
    err := ReconcileManaged(r, cr.resource.spec);
    ghost var b := StoreOf(r);
    if err.Some? {
      ManagedFailed(env, r.name, a, b);
      return;
    }
    ManagedRecords(env, r.name, a, b);
    err, ready := ReportHealth(r, cr, now);
    assert HealthRun(env.spec, b, StoreOf(r), err.None?);
    UpdateThrough(env, r.name, a, b, StoreOf(r), err.None?);
  }

  lemma ManagedRecords(env: Objects.Setting, owner: string, a: Store, b: Store)
    requires ManagedRun(env, owner, a, b, true)
    ensures WellLogged(a.jobs) ==> WellLogged(b.jobs)
    ensures a.sky.events == [] ==> b.sky.events == []
  {
  }

  lemma RanRecords(env: Objects.Setting, owner: string, a: Store, b: Store)
    requires Ran(env, owner, a, b)
    ensures WellLogged(a.jobs) ==> WellLogged(b.jobs)
    ensures a.sky.steady <= a.sky.nodes ==> b.sky.steady <= b.sky.nodes
    ensures a.sky.events == [] ==> b.sky.events == [] && b.sky.nodes == a.sky.nodes
  {
  }

  lemma IdleOn(a: Store, b: Store, c: Store)
    requires Idle(a, b) && a.jobs.jobs == map[] && Quiet(b.sky, c.sky, map[])
             && c.view == b.view.(writes := c.view.writes)
    requires c == b.(sky := c.sky, jobs := c.jobs, view := c.view)
             && (b.jobs.jobs == map[] ==> c.jobs == b.jobs && c.view == b.view)
    ensures Idle(a, c)
  {
    NoJobsNoFinish(b.sky, c.sky);
  }

  /** After the managed objects, only jobs and the number of writes change. */
  lemma RanOn(env: Objects.Setting, owner: string, a: Store, b: Store, c: Store)
    requires Ran(env, owner, a, b) && Quiet(b.sky, c.sky, b.jobs.jobs) && JobsAdvance(b.jobs, c.jobs)
    requires WellLogged(a.jobs) && c.jobs.log == b.jobs.log
    requires c == b.(sky := c.sky, jobs := c.jobs, view := b.view.(writes := c.view.writes))
    ensures Ran(env, owner, a, c)
  {
    hide Passed, JobsAdvance, Tidy, ObjectsMoved, WellLogged;
    AdvanceKeepsRecord(a.jobs, b.jobs);
    JobsAdvanceTransitive(a.jobs, b.jobs, c.jobs);
    QuietMeans(b.sky, c.sky, b.jobs.jobs);
    LaterMeans(b.sky, c.sky);
    TidyLater(env, owner, a, b, c, false);
    LaterOn(a.sky, b.sky, c.sky, b.jobs.jobs);
  }

  /** Requests that only read, or write the custom resource. */
  lemma RanQuietly(env: Objects.Setting, owner: string, a: Store, b: Store, c: Store)
    requires Ran(env, owner, a, b) && Quiet(b.sky, c.sky, b.jobs.jobs) && b.jobs.finished == b.sky.finished
    requires WellLogged(a.jobs)
    requires c == b.(sky := c.sky, jobs := b.jobs.(finished := c.sky.finished),
                  view := b.view.(writes := c.view.writes))
    ensures Ran(env, owner, a, c)
    ensures Idle(a, b) && c.view == b.view ==> Idle(a, c)
  {
    hide JobsAdvance, Tidy, ObjectsMoved, WellLogged;
    QuietAdvances(b.jobs, c.jobs, b.sky, c.sky);
    RanOn(env, owner, a, b, c);
  }

  /** The same before anything is reconciled. */
  lemma RunsAfter(env: Objects.Setting, owner: string, a: Store, b: Store, c: Store)
    requires Quiet(a.sky, b.sky, a.jobs.jobs) && a.jobs.finished == a.sky.finished
    requires b == a.(sky := b.sky, jobs := a.jobs.(finished := b.sky.finished),
                  view := a.view.(writes := b.view.writes))
    ensures Ran(env, owner, a, b)
    ensures Ran(env, owner, b, c) ==> Ran(env, owner, a, c)
  {
    hide JobsAdvance, Tidy, ObjectsMoved;
    QuietAdvances(a.jobs, b.jobs, a.sky, b.sky);
    ObjectsStay(env, owner, a.objects);
    TidyAlready(env, owner, a, b);
    if Ran(env, owner, b, c) {
      TidySince(env, owner, a, b, c, false);
      JobsAdvanceTransitive(a.jobs, b.jobs, c.jobs);
      LaterTransitive(a.sky, b.sky, c.sky);
    }
  }

  /** Without jobs none can complete. */
  lemma NoJobsNoFinish(a: Sky, b: Sky)
    ensures Quiet(a, b, map[]) ==> b.finished == a.finished
  {
    NoJobsNoUids();
  }

  lemma LaterOn(a: Sky, b: Sky, c: Sky, jobs: map<string, Job>)
    requires Later(a, b) && Quiet(b, c, jobs)
    ensures Later(a, c) && (Quiet(a, b, jobs) ==> Quiet(a, c, jobs))
  {
  }

  // ----------------------------------------------------------------------------- status

  /** The text of an error, as conditions quote it. */
  function Describe(e: Error): string {
    match e
    case Request => "request failed"
    case Missing(name) => name + " not found"
    case JunkSelector(_) => "DaemonSet with extra selector labels spotted, cleaning up and requeueing"
    case MergeFailed => "merge failed"
    case NotBound(claim) => "error: Pool PVC " + claim + " is not Bound"
    case Downgraded => "operator downgraded"
    case Several => "there should be a single hostpath provisioner"
  }

  /** How far a run came once the update was through. */
  datatype Ending = UpdateFailed(cause: Error) | CheckFailed(cause: Error) | PoolsFailed(cause: Error)
                  | Reached(ready: bool)

  /** The error a run ends with, if the result is saved. */
  function Cause(ending: Ending): Option<Error> {
    if ending.Reached? then None else Some(ending.cause)
  }

  /** What the conditions say at the end of a run: what went wrong, or that all is well. before says that the
      daemon sets were ready after the update. */
  ghost predicate Tells(cs: seq<Condition>, observed: string, before: bool, ending: Ending) {
    match ending
    case UpdateFailed(e) => Shows(cs, FailedHealing, RECONCILE_FAILED, UNABLE + Describe(e))
    case CheckFailed(_) => true
    case PoolsFailed(e) => Shows(cs, FailedHealing, POOLS_NOT_READY, Describe(e))
    case Reached(true) => before ==> Shows(cs, Healthy, COMPLETE, AVAILABLE)
    case Reached(false) => observed != "" ==> Shows(cs, Phase.Failed, DEGRADED, NOT_READY)
  }

  method CheckDegraded(r: Client, cr: Instance, now: nat) returns (err: Option<Error>, degraded: bool)
    modifies r`sky, cr
    ensures Quiet(old(r.sky), r.sky, r.jobs)
    ensures cr.resource == if err.None? && degraded && old(cr.resource.observedVersion) != ""
                           then old(cr.resource).(conditions := Marked(old(cr.resource.conditions), Phase.Failed,
                                                                       DEGRADED, NOT_READY, now))
                           else old(cr.resource)
    ensures KindsKept(old(cr.resource.conditions), cr.resource.conditions)
    ensures old(r.sky.events) == [] ==>
              && (err.None? <==> Deployed(r.daemonSets, cr.resource.spec))
              && (err.None? ==> degraded == !AllReady(r.sky, cr.resource.spec))
  {
    hide DEGRADED, NOT_READY;
    hide Uids, Obliging, Marked;
    LiveIsDistinct(cr.resource);
    var ready, count;
    err, ready, count := CheckReady(r, cr.resource.spec);
    degraded := !ready;
    if err.Some? { return err, true; }
    if degraded && cr.resource.observedVersion != "" {
      Mark(cr, Phase.Failed, DEGRADED, NOT_READY, now);
    }
  }

  /** The statuses after a run that started from the given ones. */
  ghost function StatusesAfter(start: Triple, observed: string, ending: Ending): Triple {
    match ending
    case UpdateFailed(_) => TripleOf(FailedHealing)
    case CheckFailed(_) => start
    case PoolsFailed(_) => TripleOf(FailedHealing)
    case Reached(ready) => if ready || observed == "" then start else TripleOf(Phase.Failed)
  }

  /** Every claim is bound, and the pool statuses are what is there. */
  ghost predicate Reported(c: Resource, deployments: map<string, Deployment>, claims: map<string, Claim>) {
    && PoolStatuses.ClaimsBound(c.spec, claims)
    && if IsLegacy(c.spec) then c.poolStatuses == [PoolStatus(PoolStatuses.LEGACY, 0, 0, [])]
       else PoolStatuses.Reports(c.poolStatuses, c.spec.storagePools, deployments, claims)
  }

  /** What the status check makes of the resource in memory; daemonSets, view and sky are what is there,
      and calm says that nothing interfered. */
  ghost predicate Checked(from: Resource, to: Resource, version: string, now: nat, calm: bool,
                          daemonSets: map<string, DaemonSet>, view: View, sky: Sky, err: Option<Error>,
                          ending: Ending) {
    && !ending.UpdateFailed? && err == Cause(ending) && KindsKept(from.conditions, to.conditions)
    && (Distinct(from.conditions) && ending != Reached(true) ==>
          Tells(to.conditions, from.observedVersion, false, ending))

    && to == from.(conditions := to.conditions, observedVersion := to.observedVersion, poolStatuses := to.poolStatuses)
    && to.observedVersion == (if ending == Reached(true) then version else from.observedVersion)
    && (Distinct(from.conditions) ==>
          && Distinct(to.conditions) && (Complete(from.conditions) ==> Complete(to.conditions))
          && Statuses(to.conditions) == StatusesAfter(Statuses(from.conditions), from.observedVersion, ending))
    && (ending == Reached(true) ==> to.conditions == from.conditions)
    && (if err.None? then Reported(to, view.deployments, view.claims) else to.poolStatuses == from.poolStatuses)
    && (calm ==>
          && (err.None? <==> Deployed(daemonSets, to.spec) && PoolStatuses.ClaimsBound(to.spec, view.claims))
          && (err.None? ==> ending == Reached(AllReady(sky, to.spec)))
          && (err.Some? && Deployed(daemonSets, to.spec) ==>
                && ending.PoolsFailed?
                && (AllReady(sky, to.spec) ==>
                      to.conditions == Marked(from.conditions, FailedHealing, POOLS_NOT_READY, Describe(err.value),
                                              now))))
  }

  /** What looking at the daemon sets makes of the resource. */
  ghost predicate Looked(from: Resource, to: Resource, now: nat, calm: bool, daemonSets: map<string, DaemonSet>,
                         sky: Sky, err: Option<Error>, degraded: bool) {
    && to == (if err.None? && degraded && from.observedVersion != ""
              then from.(conditions := Marked(from.conditions, Phase.Failed, DEGRADED, NOT_READY, now)) else from)
    && KindsKept(from.conditions, to.conditions)
    && (calm ==> (err.None? <==> Deployed(daemonSets, to.spec))
                 && (err.None? ==> degraded == !AllReady(sky, to.spec)))
  }

  lemma LookedFailed(from: Resource, to: Resource, version: string, now: nat, calm: bool,
                     daemonSets: map<string, DaemonSet>, view: View, sky: Sky, err: Option<Error>)
    requires Looked(from, to, now, calm, daemonSets, sky, err, true) && err.Some?
    ensures Checked(from, to, version, now, calm, daemonSets, view, sky, err, CheckFailed(err.value))
  {
    hide Statuses, Distinct, Complete, KindsKept, AllReady, Deployed, PoolStatuses.ClaimsBound, Marked;
  }

  lemma LookedOn(from: Resource, mid: Resource, to: Resource, version: string, now: nat, calm: bool,
                 daemonSets: map<string, DaemonSet>, view: View, sky: Sky, degraded: bool)
    requires Looked(from, mid, now, calm, daemonSets, sky, None, degraded)
             && Reported(to, view.deployments, view.claims)
    requires to == mid.(poolStatuses := to.poolStatuses, observedVersion := if degraded then mid.observedVersion
                   else version)
    ensures Checked(from, to, version, now, calm, daemonSets, view, sky, None, Reached(!degraded))
  {
    hide Statuses, Distinct, Complete, KindsKept, AllReady, Deployed, PoolStatuses.ClaimsBound, Marked, DEGRADED,
      NOT_READY, PoolStatuses.Reports, Tells, PoolStatuses.LEGACY;
    DegradedTells(from.conditions, from.observedVersion, now);
    CompleteIsDistinct(from.conditions);
    CompleteIsDistinct(to.conditions);
    if Distinct(from.conditions) { MarkSetsPhase(from.conditions, Phase.Failed, DEGRADED, NOT_READY, now); }
  }

  lemma LookedPools(from: Resource, mid: Resource, to: Resource, version: string, now: nat, calm: bool,
                    daemonSets: map<string, DaemonSet>, view: View, sky: Sky, degraded: bool, err: Error)
    requires Looked(from, mid, now, calm, daemonSets, sky, None, degraded)
    requires to == mid.(conditions := Marked(mid.conditions, FailedHealing, POOLS_NOT_READY, Describe(err), now))
    requires KindsKept(mid.conditions, to.conditions)
    requires calm ==> !PoolStatuses.ClaimsBound(to.spec, view.claims)
    ensures Checked(from, to, version, now, calm, daemonSets, view, sky, Some(err), PoolsFailed(err))
  {
    hide Statuses, Distinct, Complete, KindsKept, AllReady, Deployed, PoolStatuses.ClaimsBound, Marked, DEGRADED,
      NOT_READY, PoolStatuses.Reports, Tells, Describe, POOLS_NOT_READY;
    if Distinct(from.conditions) {
      MarkSetsPhase(from.conditions, Phase.Failed, DEGRADED, NOT_READY, now);
      CompleteIsDistinct(mid.conditions);
      MarkSetsPhase(mid.conditions, FailedHealing, POOLS_NOT_READY, Describe(err), now);
      CompleteIsDistinct(to.conditions);
    }
    PoolsTell(mid.conditions, mid.observedVersion, err, now);
    KindsKeptTransitive(from.conditions, mid.conditions, to.conditions);
  }

  method ReconcileStatus(r: Client, cr: Instance, version: string, now: nat)
    returns (err: Option<Error>, ghost ending: Ending)
    modifies r`sky, cr
    ensures Quiet(old(r.sky), r.sky, r.jobs)
    ensures Checked(old(cr.resource), cr.resource, version, now, old(r.sky.events) == [], r.daemonSets, ViewOf(r),
                    r.sky, err, ending)
  {
    hide DEGRADED, NOT_READY, POOLS_NOT_READY;
    hide Describe, Uids, Obliging, Marked, Statuses, Distinct, Complete, Quiet, PoolStatuses.Reports,
      PoolStatuses.ClaimsBound, KindsKept, AllReady, Deployed, PoolStatuses.LEGACY, InPhase, Checked;
    ghost var sky, start, calm := r.sky, cr.resource, r.sky.events == [];
    var degraded;
    err, degraded := CheckDegraded(r, cr, now);
    QuietMeans(sky, r.sky, r.jobs);
    assert Looked(start, cr.resource, now, calm, r.daemonSets, r.sky, err, degraded);
    ending := if err.Some? then CheckFailed(err.value) else Reached(!degraded);
    if err.Some? {
      LookedFailed(start, cr.resource, version, now, calm, r.daemonSets, ViewOf(r), r.sky, err);
      return;
    }
    ghost var mid, sky2 := cr.resource, r.sky;
    err := PoolStatuses.ReconcileStoragePoolStatus(r, cr);
    QuietMeans(sky2, r.sky, r.jobs);
    QuietTransitive(sky, sky2, r.sky, r.jobs);
    if err.Some? {
      ending := PoolsFailed(err.value);
      Mark(cr, FailedHealing, POOLS_NOT_READY, Describe(err.value), now);
      LookedPools(start, mid, cr.resource, version, now, calm, r.daemonSets, ViewOf(r), r.sky, degraded, err.value);
      return;
    }
    if !degraded && cr.resource.observedVersion != version {
      cr.resource := cr.resource.(observedVersion := version);
    }
    LookedOn(start, mid, cr.resource, version, now, calm, r.daemonSets, ViewOf(r), r.sky, degraded);
  }

  lemma DegradedTells(cs: seq<Condition>, observed: string, now: nat)
    ensures Distinct(cs) ==>
              Tells(if observed != "" then Marked(cs, Phase.Failed, DEGRADED, NOT_READY, now) else cs, observed, false,
                    Reached(false))
  {
    if Distinct(cs) { MarkShows(cs, Phase.Failed, DEGRADED, NOT_READY, now); }
  }

  lemma PoolsTell(cs: seq<Condition>, observed: string, e: Error, now: nat)
    ensures Distinct(cs) ==>
              Tells(Marked(cs, FailedHealing, POOLS_NOT_READY, Describe(e), now), observed, false, PoolsFailed(e))
  {
    if Distinct(cs) { MarkShows(cs, FailedHealing, POOLS_NOT_READY, Describe(e), now); }
  }

  lemma CompleteIsDistinct(cs: seq<Condition>)
    ensures Complete(cs) ==> Distinct(cs)
    ensures KindsKept(cs, cs)
  {
  }

  lemma KindsKeptTransitive(a: seq<Condition>, b: seq<Condition>, c: seq<Condition>)
    requires KindsKept(a, b) && KindsKept(b, c)
    ensures KindsKept(a, c)
  {
  }

  // -------------------------------------------------------------------------- a live run

  /** The statuses in memory at the end, from those at the start: healthy is marked before the
      status is looked at. */
  ghost function StatusesThrough(start: Triple, observed: string, before: bool, ending: Ending): Triple {
    StatusesAfter(if before then TripleOf(Healthy) else start, observed, ending)
  }

  /** What a run does to the store between the announcement and the final write; updated says that
      the update completed. */
  ghost predicate LiveRun(env: Objects.Setting, owner: string, a: Store, b: Store, updated: bool) {
    && Ran(env, owner, a, b) && (updated ==> Achieved(env, owner, a, b))
    && (AllAtRest(env, owner, a) && a.jobs.jobs == map[] ==> Idle(a, b))
    && (a.sky.events == [] && Calmly(env, owner, a) ==> updated)
    && (a.sky.events == [] ==> Heals(env, owner, a, b, !updated))
  }

  lemma UpdateIsLive(env: Objects.Setting, owner: string, a: Store, b: Store, ok: bool)
    requires UpdateRun(env, owner, a, b, ok)
    ensures LiveRun(env, owner, a, b, ok) && (ok ==> Deployed(b.daemonSets, env.spec))
  {
    if Calmly(env, owner, a) { CalmIsCurable(env, owner, a); }
  }

  lemma StillTidy(env: Objects.Setting, owner: string, a: Store, b: Store, c: Store)
    requires Tidy(env, owner, a, b, true) && Quiet(b.sky, c.sky, b.jobs.jobs) && b.jobs.finished == b.sky.finished
    requires c == b.(sky := c.sky, jobs := b.jobs.(finished := c.sky.finished),
                  view := b.view.(writes := c.view.writes))
    requires WellLogged(b.jobs)
    ensures Tidy(env, owner, a, c, true)
  {
    hide Tidy, JobsAdvance, WellLogged;
    QuietAdvances(b.jobs, c.jobs, b.sky, c.sky);
    QuietMeans(b.sky, c.sky, b.jobs.jobs);
    LaterMeans(b.sky, c.sky);
    TidyLater(env, owner, a, b, c, true);
  }

  /** Looking at the status afterwards only takes time. */
  lemma StatusIsLive(env: Objects.Setting, owner: string, a: Store, b: Store, c: Store)
    requires LiveRun(env, owner, a, b, true) && Quiet(b.sky, c.sky, b.jobs.jobs) && b.jobs.finished == b.sky.finished
    requires c == b.(sky := c.sky, jobs := b.jobs.(finished := c.sky.finished)) && WellLogged(a.jobs)
    ensures LiveRun(env, owner, a, c, true)
  {
    hide AllAtRest, Uids, Obliging, Tidy, JobsAdvance, WellLogged, ObjectsMoved;
    RanRecords(env, owner, a, b);
    RanQuietly(env, owner, a, b, c);
    StillTidy(env, owner, a, b, c);
  }

  /** What the update makes of the resource in memory; b is the store afterwards. */
  ghost predicate Tried(from: Resource, to: Resource, now: nat, calm: bool, b: Store, err: Option<Error>,
                        before: bool) {
    && to == from.(conditions := to.conditions) && KindsKept(from.conditions, to.conditions)
    && (Distinct(from.conditions) ==>
          && Distinct(to.conditions) && (Complete(from.conditions) ==> Complete(to.conditions))
          && Statuses(to.conditions) ==
             if err.Some? then TripleOf(FailedHealing) else if before then TripleOf(Healthy)
             else Statuses(from.conditions))
    && (err.None? && before ==> to.conditions == Marked(from.conditions, Healthy, COMPLETE, AVAILABLE, now))
    && (err.Some? && Distinct(from.conditions) ==>
          Shows(to.conditions, FailedHealing, RECONCILE_FAILED, UNABLE + Describe(err.value)))

    && (calm && err.None? ==> before == AllReady(b.sky, to.spec))
    && (err.None? ==> Deployed(b.daemonSets, to.spec))
  }

  /** The update, with its failure marked on the resource. */
  method TryUpdate(r: Client, cr: Instance, now: nat) returns (err: Option<Error>, ghost before: bool)
    requires WellLogged(JobsOf(r)) && r.sky.steady <= r.sky.nodes
    modifies r`sky, r`daemonSets, r`jobs, r`writes, r`nextUid, r`log, r`refused, r`deployments, r`claims, r`classes,
             r`objects, cr
    ensures LiveRun(Objects.SettingOf(r, cr.resource.spec), r.name, old(StoreOf(r)), StoreOf(r), err.None?)
    ensures Tried(old(cr.resource), cr.resource, now, old(r.sky.events) == [], StoreOf(r), err, before)
  {
    hide COMPLETE, AVAILABLE, RECONCILE_FAILED, UNABLE;
    hide Describe, UpdateRun, LiveRun, Achieved, AllReady, Deployed, Marked, Statuses, Distinct, Complete, KindsKept,
      Shows;
    ghost var start, env, a := cr.resource, Objects.SettingOf(r, cr.resource.spec), StoreOf(r);
    CompleteIsDistinct(start.conditions);
    if Distinct(start.conditions) { MarkSetsPhase(start.conditions, Healthy, COMPLETE, AVAILABLE, now); }
    MarkKeepsKinds(start.conditions, Healthy, COMPLETE, AVAILABLE, now);
    err, before := ReconcileUpdate(r, cr, now);
    ghost var middle := cr.resource;
    UpdateIsLive(env, r.name, a, StoreOf(r), err.None?);
    if err.Some? {
      CompleteIsDistinct(middle.conditions);
      if Distinct(middle.conditions) {
        MarkShows(middle.conditions, FailedHealing, RECONCILE_FAILED, UNABLE + Describe(err.value), now);
      }
      Mark(cr, FailedHealing, RECONCILE_FAILED, UNABLE + Describe(err.value), now);
      CompleteIsDistinct(cr.resource.conditions);
      KindsKeptTransitive(start.conditions, middle.conditions, cr.resource.conditions);
    }
  }

  /** Marked healthy after the update, and failed when the pools are not ready. */
  function Flapped(cs: seq<Condition>, e: Error, now: nat): seq<Condition> {
    Marked(Marked(cs, Healthy, COMPLETE, AVAILABLE, now), FailedHealing, POOLS_NOT_READY, Describe(e), now)
  }

  /** What update and status make of the resource in memory; b is the store afterwards, and calm says
      that nothing interfered. */
  ghost predicate Worked(begun: Resource, end: Resource, version: string, now: nat, calm: bool, b: Store,
                         err: Option<Error>, before: bool, ending: Ending) {
    && err == Cause(ending)
    && (Distinct(begun.conditions) ==> Tells(end.conditions, begun.observedVersion, before, ending))
    && end == begun.(conditions := end.conditions, observedVersion := end.observedVersion,
              poolStatuses := end.poolStatuses)
    && KindsKept(begun.conditions, end.conditions)
    && end.observedVersion == (if ending == Reached(true) then version else begun.observedVersion)
    && (Distinct(begun.conditions) ==>
          && Distinct(end.conditions) && (Complete(begun.conditions) ==> Complete(end.conditions))
          && Statuses(end.conditions) == StatusesThrough(Statuses(begun.conditions), begun.observedVersion, before,
                                                         ending))
    && (if err.None? then Reported(end, b.view.deployments, b.view.claims) else end.poolStatuses == begun.poolStatuses)
    && (before && ending == Reached(true) ==>
          end.conditions == Marked(begun.conditions, Healthy, COMPLETE, AVAILABLE, now))
    && (calm ==> !ending.CheckFailed?)
    && (calm && err.None? ==> before == AllReady(b.sky, end.spec) && ending == Reached(before))
    && (calm && !ending.UpdateFailed? ==> (err.None? <==> PoolStatuses.ClaimsBound(end.spec, b.view.claims)))
    && (calm && !ending.UpdateFailed? && err.Some? && AllReady(b.sky, end.spec) ==>
          end.conditions == Flapped(begun.conditions, err.value, now))
  }

  /** Update and status: everything between the announcement and the final write. */
  method Work(r: Client, cr: Instance, version: string, now: nat)
    returns (err: Option<Error>, ghost before: bool, ghost ending: Ending)
    requires WellLogged(JobsOf(r)) && r.sky.steady <= r.sky.nodes
    modifies r`sky, r`daemonSets, r`jobs, r`writes, r`nextUid, r`log, r`refused, r`deployments, r`claims, r`classes,
             r`objects, cr
    ensures LiveRun(Objects.SettingOf(r, cr.resource.spec), r.name, old(StoreOf(r)), StoreOf(r), !ending.UpdateFailed?)
    ensures Worked(old(cr.resource), cr.resource, version, now, old(r.sky.events) == [], StoreOf(r), err, before,
                   ending)
    ensures cr.resource.spec == old(cr.resource.spec)
  {
    hide LiveRun, Tried, Checked, Worked, Quiet, Passed, Later, Uids, WellLogged, Ran, Achieved, Obliging;
    ghost var env, a, start, calm := Objects.SettingOf(r, cr.resource.spec), StoreOf(r), cr.resource,
                                     r.sky.events == [];
    err, before := TryUpdate(r, cr, now);
    ending := UpdateFailed(if err.Some? then err.value else Request);
    ghost var b, middle := StoreOf(r), cr.resource;
    TriedMeans(start, middle, version, now, calm, b, err, before);
    if err.None? {
      assert err == None;
      LiveRecords(env, r.name, a, b, true);
      err, ending := ReconcileStatus(r, cr, version, now);
      QuietMeans(b.sky, r.sky, r.jobs);
      StatusIsLive(env, r.name, a, b, StoreOf(r));
      CheckedMeans(start, middle, cr.resource, version, now, calm, b, StoreOf(r), err, before, ending);
    }
  }

  lemma TriedMeans(start: Resource, middle: Resource, version: string, now: nat, calm: bool, b: Store,
                   err: Option<Error>, before: bool)
    requires Tried(start, middle, now, calm, b, err, before)
    ensures middle.spec == start.spec
    ensures err.Some? ==> Worked(start, middle, version, now, calm, b, err, before, UpdateFailed(err.value))
  {
    hide Marked, Statuses, Distinct, Complete, KindsKept, Reported, COMPLETE, AVAILABLE, AllReady, Flapped;
  }

  lemma CheckedMeans(start: Resource, middle: Resource, end: Resource, version: string, now: nat, calm: bool, b: Store,
                     c: Store, err: Option<Error>, before: bool, ending: Ending)
    requires Tried(start, middle, now, calm, b, None, before) && c.daemonSets == b.daemonSets
             && (calm ==> b.sky.events == [] && c.sky == b.sky)
    requires Checked(middle, end, version, now, b.sky.events == [], c.daemonSets, c.view, c.sky, err, ending)
    ensures Worked(start, end, version, now, calm, c, err, before, ending) && end.spec == start.spec
            && !ending.UpdateFailed?
  {
    hide Marked, Statuses, Distinct, Complete, KindsKept, Reported, COMPLETE, AVAILABLE, AllReady, Deployed,
      POOLS_NOT_READY, Describe, PoolStatuses.ClaimsBound, Shows;
    if Distinct(start.conditions) { MarkShows(start.conditions, Healthy, COMPLETE, AVAILABLE, now); }
    KindsKeptTransitive(start.conditions, middle.conditions, end.conditions);
  }

  /** Nothing to do, and nodes in place. */
  ghost predicate Calmly(env: Objects.Setting, owner: string, s: Store) {
    AllAtRest(env, owner, s) && s.jobs.jobs == map[] && HousedIn(s)
  }

  lemma CalmIsCurable(env: Objects.Setting, owner: string, s: Store)
    requires Calmly(env, owner, s)
    ensures Curable(env, s) && Obstacles(s, env.spec) == 0 && Deployed(s.daemonSets, env.spec)
  {
    RestIsClear(env, owner, s);
  }

  /** Where a run was cut off, or how it went through and whether the result was stored. */
  datatype Course = Cut | Through(before: bool, ending: Ending, saved: bool)

  /** The versions and the finalizer a run leaves. */
  ghost predicate Signed(c: Resource, version: string) {
    c.operatorVersion == c.targetVersion == version && FINALIZER in c.finalizers
  }

  /** A run that found a and went through left its observed version and its statuses stored. */
  ghost predicate Recorded(a: Resource, now: Option<Resource>, version: string, course: Course) {
    course.Through? && now.Some? && Signed(now.value, version)
    && (!course.ending.Reached? ==> now.value.poolStatuses == a.poolStatuses)

    && now.value.observedVersion == (if course.ending == Reached(true) then version else a.observedVersion)
    && (Distinct(a.conditions) ==>
          Statuses(now.value.conditions) == StatusesThrough(StatusesAtStart(a, version), a.observedVersion,
                                                            course.before, course.ending)
          && Tells(now.value.conditions, a.observedVersion, course.before, course.ending))
  }

  /** The answer of a run: the error of a run that was cut off or could not save its result, and otherwise what
      went wrong on the way. */
  ghost predicate Answers(course: Course, err: Option<Error>) {
    if course.Through? && course.saved then err == Cause(course.ending) else err.Some?
  }

  lemma TellsUpToHeartbeats(a: seq<Condition>, b: seq<Condition>, observed: string, before: bool, ending: Ending)
    requires SameButHeartbeats(a, b) && Tells(b, observed, before, ending)
    ensures Tells(a, observed, before, ending)
  {
    hide Shows, SameButHeartbeats, COMPLETE, AVAILABLE, DEGRADED, NOT_READY, POOLS_NOT_READY, RECONCILE_FAILED, UNABLE;
    match ending
    case UpdateFailed(e) => ShowsUpToHeartbeats(a, b, FailedHealing, RECONCILE_FAILED, UNABLE + Describe(e));
    case CheckFailed(_) =>
    case PoolsFailed(e) => ShowsUpToHeartbeats(a, b, FailedHealing, POOLS_NOT_READY, Describe(e));
    case Reached(true) => if before { ShowsUpToHeartbeats(a, b, Healthy, COMPLETE, AVAILABLE); }
    case Reached(false) => if observed != "" { ShowsUpToHeartbeats(a, b, Phase.Failed, DEGRADED, NOT_READY); }
  }


  /** Whether the final write was needed or not. */
  lemma EndIsRecorded(a: Resource, end: Resource, now: Option<Resource>, version: string, course: Course)
    requires course.Through? && !end.deleting && Signed(end, version)
    requires !course.ending.Reached? ==> end.poolStatuses == a.poolStatuses
    requires end.observedVersion == if course.ending == Reached(true) then version else a.observedVersion
    requires Distinct(a.conditions) ==>
               Statuses(end.conditions) == StatusesThrough(StatusesAtStart(a, version), a.observedVersion,
                                                           course.before, course.ending)
               && Tells(end.conditions, a.observedVersion, course.before, course.ending)
    requires now == Accepted(end) || (now == Some(a) && end.(conditions := a.conditions) == a
                                      && Statuses(a.conditions) == Statuses(end.conditions)
                                      && (Distinct(a.conditions) ==> SameButHeartbeats(a.conditions, end.conditions)))
    ensures Recorded(a, now, version, course)
  {
    hide Tells, Distinct, SameButHeartbeats, Statuses, StatusesThrough, StatusesAtStart;
    if Distinct(a.conditions) && SameButHeartbeats(a.conditions, end.conditions) {
      TellsUpToHeartbeats(a.conditions, end.conditions, a.observedVersion, course.before, course.ending);
    }

  }

  ghost predicate PhaseTriple(t: Triple) {
    exists phase :: t == TripleOf(phase)
  }

  lemma ThroughPhases(a: Resource, version: string, before: bool, ending: Ending)
    requires Live(a)
    ensures a.observedVersion == "" || Complete(a.conditions)
    ensures PhaseTriple(StatusesThrough(StatusesAtStart(a, version), a.observedVersion, before, ending))
  {
    var start := StatusesAtStart(a, version);
    assert PhaseTriple(start) by {
      if start == Statuses(a.conditions) && a.observedVersion != "" {
        var phase :| Statuses(a.conditions) == TripleOf(phase);
        assert start == TripleOf(phase);
      } else if a.observedVersion == "" { assert start == TripleOf(Deploying); }
      else { assert start == TripleOf(Upgrading); }
    }
    var end := StatusesThrough(start, a.observedVersion, before, ending);
    if end != start {
      assert end == TripleOf(Healthy) || end == TripleOf(FailedHealing) || end == TripleOf(Phase.Failed);
    }
  }

  /** What is in memory at the end may be stored. */
  lemma EndIsLawful(a: Resource, begun: Resource, end: Resource, version: string, before: bool, ending: Ending)
    requires Lawful(a, begun, version) && begun.observedVersion == a.observedVersion
             && Versions.CanUpgrade(a.observedVersion, version) != Versions.Downgrade
    requires end == begun.(conditions := end.conditions, observedVersion := end.observedVersion,
                    poolStatuses := end.poolStatuses)
    requires end.observedVersion in {a.observedVersion, version} && KindsKept(begun.conditions, end.conditions)
    requires Live(a) ==> Complete(end.conditions)
    requires Live(a) ==> Statuses(end.conditions) == StatusesThrough(StatusesAtStart(a, version), a.observedVersion,
                                                                     before, ending)
    ensures Lawful(a, end, version) && KindsKept(a.conditions, end.conditions)
    ensures !end.deleting ==> Stored(a, Accepted(end), version) || a.deleting
  {
    KindsKeptTransitive(a.conditions, begun.conditions, end.conditions);
    if Live(a) {
      ThroughPhases(a, version, before, ending);
      var phase :| StatusesThrough(StatusesAtStart(a, version), a.observedVersion, before, ending) == TripleOf(phase);
      assert InPhase(end.conditions);
    }
  }

  /** A resource that says what a healthy run says. */
  ghost predicate SettledResource(a: Resource, version: string) {
    && !a.deleting && FINALIZER in a.finalizers && version != ""
    && a.operatorVersion == a.targetVersion == a.observedVersion == version
    && Shows(a.conditions, Healthy, COMPLETE, AVAILABLE)
  }

  /** The pool statuses it lists are the only ones a run can report. */
  ghost predicate Told(a: Resource, deployments: map<string, Deployment>, claims: map<string, Claim>) {
    if IsLegacy(a.spec) then a.poolStatuses == [PoolStatus(PoolStatuses.LEGACY, 0, 0, [])]
    else forall s | PoolStatuses.Reports(s, a.spec.storagePools, deployments, claims) :: s == a.poolStatuses
  }

  /** Nothing to do, and the resource says so. */
  ghost predicate Quiescent(env: Objects.Setting, owner: string, cr: Resource, s: Store, version: string) {
    && s.sky.events == [] && SettledResource(cr, version) && env.spec == cr.spec
    && Calmly(env, owner, s) && AllReady(s.sky, cr.spec) && PoolStatuses.ClaimsBound(cr.spec, s.view.claims)
  }

  lemma QuiescentMeans(env: Objects.Setting, owner: string, cr: Resource, s: Store, version: string, now: nat)
    requires Quiescent(env, owner, cr, s, version)
    ensures s.sky.events == [] && env.spec == cr.spec && AllReady(s.sky, cr.spec) && Calmly(env, owner, s)
    ensures AllAtRest(env, owner, s) && s.jobs.jobs == map[] && PoolStatuses.ClaimsBound(cr.spec, s.view.claims)
    ensures cr.observedVersion == version && Distinct(cr.conditions)
    ensures SameButHeartbeats(cr.conditions, Marked(cr.conditions, Healthy, COMPLETE, AVAILABLE, now))
  {
    HeartbeatOnly(cr.conditions, Healthy, COMPLETE, AVAILABLE, now);
  }

  /** Everything is as it should be but some claim of a pool is not bound, and the resource has not
      counted as not available since this very moment. */
  ghost predicate Restless(env: Objects.Setting, owner: string, cr: Resource, s: Store, version: string, now: nat) {
    && s.sky.events == [] && env.spec == cr.spec && Calmly(env, owner, s) && AllReady(s.sky, cr.spec)
    && !PoolStatuses.ClaimsBound(cr.spec, s.view.claims)
    && !cr.deleting && FINALIZER in cr.finalizers && version != ""
    && cr.operatorVersion == cr.targetVersion == cr.observedVersion == version
    && Complete(cr.conditions) && !DownSince(cr.conditions, now)
  }

  /** The run failed, and its one write was the resource, marked healthy and then failed. */
  ghost predicate Rewritten(cr: Resource, now: Option<Resource>, a: Store, b: Store, clock: nat, err: Option<Error>) {
    && err.Some? && b == a.(view := a.view.(writes := a.view.writes + 1))
    && now == Some(cr.(conditions := Flapped(cr.conditions, err.value, clock), revision := cr.revision + 1))
  }

  /** What the final write needs to know about the resource in memory. */
  ghost predicate Storable(copy: Resource, end: Resource, version: string, before: bool, ending: Ending) {
    && KindsKept(copy.conditions, end.conditions) && !end.deleting && Stored(copy, Accepted(end), version)
    && Signed(end, version) && (!ending.Reached? ==> end.poolStatuses == copy.poolStatuses)

    && end.observedVersion == (if ending == Reached(true) then version else copy.observedVersion)
    && (Distinct(copy.conditions) ==>
          Statuses(end.conditions) == StatusesThrough(StatusesAtStart(copy, version), copy.observedVersion,
                                                      before,
                                                      ending)
          && Tells(end.conditions, copy.observedVersion, before, ending))
  }


  lemma WorkedIsStorable(copy: Resource, begun: Resource, end: Resource, version: string, now: nat, calm: bool,
                         b: Store, err: Option<Error>, before: bool, ending: Ending)
    requires Begun(copy, begun, version) && Worked(begun, end, version, now, calm, b, err, before, ending)
             && !copy.deleting
    ensures Storable(copy, end, version, before, ending) && end.revision == begun.revision
    ensures err == Cause(ending) && (calm ==> !ending.CheckFailed?)
    ensures calm && err.None? ==> before == AllReady(b.sky, copy.spec) && ending == Reached(before)
  {
    hide Marked, Statuses, Distinct, KindsKept, StatusesThrough, StatusesAtStart, Versions.CanUpgrade, Complete,
      PoolStatuses.Reports, COMPLETE, AVAILABLE, Flapped, Stored, AllReady, PoolStatuses.LEGACY;
    LiveIsDistinct(copy);
    LiveIsDistinct(end);
    EndIsLawful(copy, begun, end, version, before, ending);
  }

  /** The stored resource: what was in memory, or what was there if that is the same. */
  ghost predicate Put(copy: Resource, end: Resource, now: Option<Resource>) {
    now == Accepted(end) || (now == Some(copy) && (Distinct(copy.conditions) ==> Unchanged(copy, end)))
  }

  /** What the final write does, needed or not. */
  ghost predicate Writing(copy: Resource, end: Resource, was: Option<Resource>, now: Option<Resource>, b: Store,
                          c: Store, failure: Option<Error>) {
    && c == b.(sky := c.sky, jobs := b.jobs.(finished := c.sky.finished), view := b.view.(writes := c.view.writes))
    && Quiet(b.sky, c.sky, b.jobs.jobs)
    && (failure.None? ==> Put(copy, end, now))
    && (Distinct(copy.conditions) ==> if Unchanged(copy, end) then failure.None? && now == was && c == b
          else c.view.writes == b.view.writes + 1)
    && (b.sky.events == [] ==> failure.None?)
  }

  /** The final write, if one is needed. */
  method Save(r: Client, cr: Instance, copy: Resource, version: string, ghost before: bool, ghost ending: Ending)
    returns (err: Option<Error>, ghost course: Course)
    requires Storable(copy, cr.resource, version, before, ending) && Stored(copy, r.cr, version)
    requires cr.resource.revision == copy.revision ==> r.cr == Some(copy)
    modifies r`sky, r`cr, r`writes, cr
    ensures Quiet(old(r.sky), r.sky, r.jobs) && Stored(copy, r.cr, version)
    ensures course == Through(before, ending, err.None?) && (err.None? ==> Recorded(copy, r.cr, version, course))
    ensures Writing(copy, old(cr.resource), old(r.cr), r.cr, old(StoreOf(r)), StoreOf(r), err)
  {
    hide Uids, Obliging, Passed, KindsKept, Statuses, Distinct, StatusesThrough, StatusesAtStart, Stored,
      SameButHeartbeats, Recorded;
    ghost var end := cr.resource;
    err := Finish(r, cr, copy);
    course := Through(before, ending, err.None?);
    if err.None? { EndIsRecorded(copy, end, r.cr, version, course); }
  }

  /** After a run that got to the end and was saved, the stored resource lists what is there, and after a healthy
    one it says so. */
  ghost predicate Settles(cr: Resource, now: Option<Resource>, version: string, b: Store, course: Course) {
    course.Through? && course.saved && course.ending.Reached? && Distinct(cr.conditions) ==>
      && now.Some? && now.value.spec == cr.spec && Reported(now.value, b.view.deployments, b.view.claims)
      && (course == Through(true, Reached(true), true) && version != "" ==> SettledResource(now.value, version))

  }

  lemma WorkedSettles(copy: Resource, begun: Resource, end: Resource, stored: Option<Resource>, version: string,
                      now: nat, calm: bool, b: Store, c: Store, err: Option<Error>, before: bool, ending: Ending)
    requires Begun(copy, begun, version) && Worked(begun, end, version, now, calm, b, err, before, ending)
             && ending.Reached?
             && Put(copy, end, stored)
    requires !copy.deleting && c.view == b.view.(writes := c.view.writes)
    ensures Settles(copy, stored, version, c, Through(before, ending, true))
  {
    hide Marked, Statuses, Distinct, KindsKept, StatusesThrough, StatusesAtStart, Versions.CanUpgrade, Complete,
      PoolStatuses.Reports, PoolStatuses.ClaimsBound, Shows, SameButHeartbeats, COMPLETE, AVAILABLE,
      PoolStatuses.LEGACY, FINALIZER;
    if Distinct(copy.conditions) && before && ending == Reached(true) {
      MarkShows(begun.conditions, Healthy, COMPLETE, AVAILABLE, now);
      if SameButHeartbeats(copy.conditions, end.conditions) {
        ShowsUpToHeartbeats(copy.conditions, end.conditions, Healthy, COMPLETE, AVAILABLE);
      }
    }
  }

  lemma NotSettling(cr: Resource, now: Option<Resource>, version: string, b: Store, course: Course)
    ensures !(course.Through? && course.saved && course.ending.Reached?) ==> Settles(cr, now, version, b, course)
  {
  }

  /** What a run makes of a settled resource. */
  lemma QuiescentEnds(env: Objects.Setting, owner: string, cr: Resource, end: Resource, a: Store, b: Store,
                      version: string, now: nat, err: Option<Error>, before: bool, ending: Ending)
    requires Quiescent(env, owner, cr, a, version) && LiveRun(env, owner, a, b, !ending.UpdateFailed?)
             && a.jobs.finished == a.sky.finished
    requires Worked(cr, end, version, now, a.sky.events == [], b, err, before, ending)
    ensures a.sky.events == [] && a == b && err.None? && Distinct(cr.conditions)
    ensures Told(cr, a.view.deployments, a.view.claims) ==> Unchanged(cr, end)
  {
    hide LiveRun, Marked, Statuses, Distinct, KindsKept, StatusesThrough, Complete, PoolStatuses.Reports,
      PoolStatuses.ClaimsBound, AllReady, Calmly, Quiescent, SameButHeartbeats, COMPLETE, AVAILABLE,
      PoolStatuses.LEGACY;
    QuiescentMeans(env, owner, cr, a, version, now);
    CalmIsIdle(env, owner, a, b, !ending.UpdateFailed?);
  }

  /** And of one with a claim that is not bound. */
  lemma RestlessEnds(env: Objects.Setting, owner: string, cr: Resource, end: Resource, a: Store, b: Store,
                     version: string, now: nat, err: Option<Error>, before: bool, ending: Ending)
    requires Restless(env, owner, cr, a, version, now) && LiveRun(env, owner, a, b, !ending.UpdateFailed?)
             && a.jobs.finished == a.sky.finished
    requires Worked(cr, end, version, now, a.sky.events == [], b, err, before, ending)
    ensures a.sky.events == [] && a == b && err.Some? && Distinct(cr.conditions) && !Unchanged(cr, end)
    ensures end == cr.(conditions := Flapped(cr.conditions, err.value, now))
  {
    hide LiveRun, Marked, Statuses, KindsKept, StatusesThrough, PoolStatuses.Reports, PoolStatuses.ClaimsBound,
      AllReady, Calmly, SameButHeartbeats, COMPLETE, AVAILABLE, POOLS_NOT_READY, PoolStatuses.LEGACY, DownSince,
      Distinct;
    CompleteIsDistinct(cr.conditions);
    CalmIsIdle(env, owner, a, b, !ending.UpdateFailed?);
    FailingAgainShows(cr.conditions, COMPLETE, AVAILABLE, POOLS_NOT_READY, Describe(err.value), now);
  }

  /** And its conditions are not what was stored, so it is written. */
  lemma RestlessIsRewritten(cr: Resource, end: Resource, stored: Option<Resource>, a: Store, b: Store, now: nat,
                            err: Option<Error>)
    requires err.Some? && Distinct(cr.conditions) && !Unchanged(cr, end) && !cr.deleting
    requires end == cr.(conditions := Flapped(cr.conditions, err.value, now)) && Put(cr, end, stored)
    requires b == a.(view := a.view.(writes := a.view.writes + 1))
    ensures Rewritten(cr, stored, a, b, now, err)
  {
  }

  lemma CalmIsIdle(env: Objects.Setting, owner: string, a: Store, b: Store, updated: bool)
    requires a.sky.events == [] && Calmly(env, owner, a) && LiveRun(env, owner, a, b, updated)
             && a.jobs.finished == a.sky.finished
    ensures a == b && updated
  {
  }

  /** What a run does from the announcement to the final write: cr is the resource it found, begun the
      one it started from, stored and now what the server had and has. */
  ghost predicate Storing(env: Objects.Setting, owner: string, cr: Resource, begun: Resource, stored: Option<Resource>,
                          now: Option<Resource>, a: Store, b: Store, version: string, clock: nat, err: Option<Error>,
                          course: Course) {
    && Ran(env, owner, a, b) && course.Through? && Settles(cr, now, version, b, course) && Answers(course, err)
    && (!course.ending.UpdateFailed? ==> Achieved(env, owner, a, b))
    && (a.sky.events == [] ==>
          && Heals(env, owner, a, b, course.ending.UpdateFailed?) && course.saved
          && (err.None? <==> course.ending.Reached?) && !course.ending.CheckFailed?
          && (err.None? ==> course.before == AllReady(b.sky, cr.spec) && course.ending == Reached(course.before)))
    && (begun == cr && stored == Some(cr) ==>
          && (Quiescent(env, owner, cr, a, version) ==>
                err.None? && b == a.(view := a.view.(writes := b.view.writes))
                && (Told(cr, a.view.deployments, a.view.claims) ==> now == stored && b == a))
          && (Restless(env, owner, cr, a, version, clock) ==> Rewritten(cr, now, a, b, clock, err)))
  }

  lemma WorkIsStored(env: Objects.Setting, owner: string, cr: Resource, begun: Resource, end: Resource,
                     stored: Option<Resource>, now: Option<Resource>, a: Store, b: Store, c: Store, version: string,
                     clock: nat, err: Option<Error>, failure: Option<Error>, before: bool, ending: Ending)
    requires Begun(cr, begun, version) && !cr.deleting
             && Worked(begun, end, version, clock, a.sky.events == [], b, err, before, ending)
    requires LiveRun(env, owner, a, b, !ending.UpdateFailed?) && a.jobs.finished == a.sky.finished
             && b.jobs.finished == b.sky.finished
    requires Writing(cr, end, stored, now, b, c, failure)
    requires WellLogged(a.jobs)
    ensures Storing(env, owner, cr, begun, stored, now, a, c, version, clock, if failure.Some? then failure
                    else err, Through(before, ending, failure.None?))
  {
    hide LiveRun, Ran, Told, Passed, AllReady, Worked, Begun, Distinct, Unchanged, Quiescent, Restless, Achieved, Heals,
      Put, Settles, Rewritten, Flapped, Storable;
    var course := Through(before, ending, failure.None?);
    WorkedIsStorable(cr, begun, end, version, clock, a.sky.events == [], b, err, before, ending);
    LiveThrough(env, owner, a, b, c, !ending.UpdateFailed?);
    if course.saved && ending.Reached? {
      WorkedSettles(cr, begun, end, now, version, clock, a.sky.events == [], b, c, err, before, ending);
    }
    NotSettling(cr, now, version, c, course);
    if begun == cr && Quiescent(env, owner, cr, a, version) {
      QuiescentEnds(env, owner, cr, end, a, b, version, clock, err, before, ending);
    }
    if begun == cr && Restless(env, owner, cr, a, version, clock) {
      RestlessEnds(env, owner, cr, end, a, b, version, clock, err, before, ending);
      RestlessIsRewritten(cr, end, now, a, c, clock, err);
    }
  }

  /** From the announcement to the final write. */
  method WorkAndStore(r: Client, cr: Instance, copy: Resource, version: string, now: nat)
    returns (err: Option<Error>, ghost course: Course)
    requires WellLogged(JobsOf(r)) && r.sky.steady <= r.sky.nodes
    requires !copy.deleting && Stored(copy, r.cr, version) && Begun(copy, cr.resource, version)
    requires cr.resource.revision == copy.revision ==> r.cr == Some(copy)
    modifies r`sky, r`daemonSets, r`jobs, r`writes, r`nextUid, r`log, r`refused, r`deployments, r`claims, r`classes,
             r`objects, r`cr, cr
    ensures Storing(Objects.SettingOf(r, copy.spec), r.name, copy, old(cr.resource), old(r.cr), r.cr, old(StoreOf(r)),
                    StoreOf(r), version, now, err, course)
    ensures Stored(copy, r.cr, version) && (course.saved ==> Recorded(copy, r.cr, version, course))
  {
    hide Uids, Obliging, LiveRun, WellLogged, Passed, Worked, Begun, Storable, Stored, Recorded, Storing, Writing,
      Tells;
    ghost var env, a, begun, stored := Objects.SettingOf(r, copy.spec), StoreOf(r), cr.resource, r.cr;
    BegunKeepsSpec(copy, begun, version);
    ghost var before, ending;
    err, before, ending := Work(r, cr, version, now);
    ghost var b, end, failed := StoreOf(r), cr.resource, err;
    WorkedIsStorable(copy, begun, end, version, now, a.sky.events == [], b, err, before, ending);
    var failure;
    failure, course := Save(r, cr, copy, version, before, ending);
    WorkIsStored(env, r.name, copy, begun, end, stored, r.cr, a, b, StoreOf(r), version, now, failed, failure, before,
                 ending);
    if failure.Some? { err := failure; }
  }

  /** Writing the resource changes nothing about the store but the number of writes. */
  lemma LiveThrough(env: Objects.Setting, owner: string, a: Store, b: Store, c: Store, updated: bool)
    requires LiveRun(env, owner, a, b, updated) && Quiet(b.sky, c.sky, b.jobs.jobs) && b.jobs.finished == b.sky.finished
    requires c == b.(sky := c.sky, jobs := b.jobs.(finished := c.sky.finished),
                  view := b.view.(writes := c.view.writes)) && WellLogged(a.jobs)
    ensures Ran(env, owner, a, c) && (updated ==> Achieved(env, owner, a, c))
            && (a.sky.events == [] ==> b.sky.events == [] && Heals(env, owner, a, c, !updated))
  {
    hide Tidy, JobsAdvance, WellLogged, ObjectsMoved, Obliging, AllAtRest, ServiceAccounts.HasAccounts,
      DaemonSets.AllCurrent, Converged, PairsWanted;
    LiveRecords(env, owner, a, b, updated);
    RanRecords(env, owner, a, b);
    RanQuietly(env, owner, a, b, c);
    if updated { StillTidy(env, owner, a, b, c); }
    ConvergedAnyway(b.view, c.view.writes, PairsWanted(env.spec, b.daemonSets, b.pods));
  }

  lemma BegunUpgrades(a: Resource, c: Resource, version: string)
    ensures Begun(a, c, version) ==> Versions.CanUpgrade(a.observedVersion, version) != Versions.Downgrade
  {
  }

  lemma BegunKeepsSpec(a: Resource, c: Resource, version: string)
    requires Begun(a, c, version)
    ensures c.spec == a.spec && c.deleting == a.deleting
  {
  }

  lemma LiveRecords(env: Objects.Setting, owner: string, a: Store, b: Store, updated: bool)
    requires LiveRun(env, owner, a, b, updated)
    ensures Ran(env, owner, a, b) && (a.sky.events == [] ==> b.sky.events == [])
            && (updated ==> Achieved(env, owner, a, b))
  {
  }

  /** A run for a resource that is not being deleted. */
  method ReconcileActive(r: Client, version: string, now: nat) returns (err: Option<Error>, ghost course: Course)
    requires WellLogged(JobsOf(r)) && r.sky.steady <= r.sky.nodes && r.cr.Some? && !r.cr.value.deleting
    modifies r`sky, r`daemonSets, r`jobs, r`writes, r`nextUid, r`log, r`refused, r`deployments, r`claims, r`classes,
             r`objects, r`cr
    ensures Ran(Objects.SettingOf(r, old(r.cr.value.spec)), r.name, old(StoreOf(r)), StoreOf(r))
    ensures Stored(old(r.cr.value), r.cr, version)
    ensures Answers(course, err) && (course.Cut? ==> Untouched(old(StoreOf(r)), StoreOf(r)))
    ensures Versions.CanUpgrade(old(r.cr.value.observedVersion), version) == Versions.Downgrade ==>
              course.Cut? && (old(r.sky.events) == [] ==> err == Some(Downgraded))
    ensures course.Through? && course.saved ==> Recorded(old(r.cr.value), r.cr, version, course)
    ensures Settles(old(r.cr.value), r.cr, version, StoreOf(r), course)
    ensures course.Through? && !course.ending.UpdateFailed? ==>
              Achieved(Objects.SettingOf(r, old(r.cr.value.spec)), r.name, old(StoreOf(r)), StoreOf(r))
    ensures old(r.sky.events) == [] ==>
              && (course.Through? <==> Versions.CanUpgrade(old(r.cr.value.observedVersion),
                                                           version) != Versions.Downgrade)
              && (course.Through? ==>
                    && course.saved && (err.None? <==> course.ending.Reached?) && !course.ending.CheckFailed?
                    && Heals(Objects.SettingOf(r, old(r.cr.value.spec)), r.name, old(StoreOf(r)), StoreOf(r),
                             course.ending.UpdateFailed?))
              && (course.Through? && err.None? ==>
                    course.before == AllReady(r.sky, old(r.cr.value.spec)) && course.ending == Reached(course.before))
    ensures Quiescent(Objects.SettingOf(r, old(r.cr.value.spec)), r.name, old(r.cr.value), old(StoreOf(r)), version) ==>
              && err.None? && StoreOf(r) == old(StoreOf(r)).(view := old(ViewOf(r)).(writes := r.writes))
              && (Told(old(r.cr.value), old(r.deployments), old(r.claims)) ==>
                    r.cr == old(r.cr) && r.writes == old(r.writes))
    ensures Restless(Objects.SettingOf(r, old(r.cr.value.spec)), r.name, old(r.cr.value), old(StoreOf(r)), version,
                     now) ==>
              Rewritten(old(r.cr.value), r.cr, old(StoreOf(r)), StoreOf(r), now, err)
  {
    hide Uids, Obliging, Ran, WellLogged, AllReady, Marked, Statuses, Distinct, Complete, KindsKept, Passed, DownSince,
      PoolStatuses.ClaimsBound, Begun, Rewritten, Settles, PoolStatuses.Reports, Lawful, Stored, Live,
      StatusesThrough, StatusesAtStart, Versions.CanUpgrade, Calmly, Shows, AllAtRest, Told, Recorded, Achieved, Heals;
    ghost var found, a := r.cr.value, StoreOf(r);
    course := Cut;
    var copy := r.cr.value;
    var cr := new Instance(copy);
    LiveIsDistinct(found);
    err := Begin(r, cr, version, now);
    ghost var b := StoreOf(r);
    BegunUpgrades(found, cr.resource, version);
    NotSettling(found, r.cr, version, b, course);
    RunsAfter(Objects.SettingOf(r, found.spec), r.name, a, b, b);
    if err.Some? { return; }
    RanRecords(Objects.SettingOf(r, found.spec), r.name, a, b);
    err, course := WorkAndStore(r, cr, copy, version, now);
    RunsAfter(Objects.SettingOf(r, found.spec), r.name, a, b, StoreOf(r));
    QuietMeans(a.sky, b.sky, a.jobs.jobs);
    AchievedSince(Objects.SettingOf(r, found.spec), r.name, a, b, StoreOf(r));
  }

  lemma AchievedSince(env: Objects.Setting, owner: string, a: Store, b: Store, c: Store)
    requires Resumes(a, b)
    ensures Achieved(env, owner, b, c) ==> Achieved(env, owner, a, c)
    ensures b == a.(view := a.view.(writes := b.view.writes)) ==>
              forall failed: bool | Heals(env, owner, b, c, failed) :: Heals(env, owner, a, c, failed)
  {
    hide Tidy, Later, ObjectsMoved, Objects.Mendable, DaemonSets.JunkCount;
    if Achieved(env, owner, b, c) { TidySince(env, owner, a, b, c, true); }
  }

  /** Nothing that is managed changed. */
  ghost predicate Untouched(a: Store, b: Store) {
    b == a.(sky := b.sky, jobs := a.jobs.(finished := b.sky.finished), view := a.view.(writes := b.view.writes))
  }

  /** Between a and b time passed, and there may have been writes that concern the resource alone. */
  ghost predicate Resumes(a: Store, b: Store) {
    && b.pods == a.pods && b.daemonSets == a.daemonSets && b.objects == a.objects
    && b.view == a.view.(writes := b.view.writes) && b.jobs.log == a.jobs.log && Later(a.sky, b.sky)
  }



  lemma NothingMoved(a: View, b: View)
    requires b == a.(writes := b.writes)
    ensures ViewMoved(a, b) && forall c | ViewMoved(b, c) :: ViewMoved(a, c)
  {
    NothingLost(a, b, {});
    assert Restarted(b, b);
    forall c | ViewMoved(b, c) ensures ViewMoved(a, c) {
      var mid, pairs :| NoGroundLost(b, mid, pairs) && Restarted(mid, c);
      NothingLost(a, b, pairs);
      assert NoGroundLost(a, mid, pairs) && Restarted(mid, c);
    }
  }

  // --------------------------------------------------------------------- a deletion run

  ghost predicate OnNodes(m: map<string, Deployment>, nodes: set<string>) {
    forall k | k in m && Managed(m[k]) :: m[k].spec.node in nodes
  }

  /** The resource once the operator lets go of it. */
  function LetGo(a: Resource): Option<Resource> {
    Accepted(a.(finalizers := Without(a.finalizers, FINALIZER)))
  }

  /** A run for a resource that is being deleted: pools are cleaned, then the run waits for the
      unmount jobs, then everything without an owner and at last the finalizer goes. */
  method ReconcileDeletion(r: Client, ghost nodes: set<string>) returns (err: Option<Error>, requeue: bool)
    requires WellLogged(JobsOf(r)) && r.sky.steady <= r.sky.nodes && r.cr.Some? && r.cr.value.deleting
    requires OnNodes(r.deployments, nodes)
    modifies r`sky, r`jobs, r`writes, r`nextUid, r`log, r`refused, r`deployments, r`objects, r`cr
    ensures Later(old(r.sky), r.sky)
    ensures Teardown.Torn(old(r.cr.value.spec.storagePools), nodes, old(Teardown.SceneOf(r)), Teardown.SceneOf(r))
    ensures Objects.Deleting(old(r.objects), r.objects, Objects.Doomed(r.sccUsed, r.prometheusUsed), false)
    ensures r.cr == old(r.cr) || r.cr == LetGo(old(r.cr.value))
    ensures r.cr != old(r.cr) ==> Teardown.Released(Teardown.SceneOf(r))
                                  && r.objects.Keys !! Objects.Doomed(r.sccUsed, r.prometheusUsed)
    ensures err.None? ==> forall p | p in old(r.cr.value.spec.storagePools) && p.template.Some? ::
                Teardown.Swept(p, r.deployments)
    ensures err.None? && !requeue ==> r.cr == LetGo(old(r.cr.value))
    ensures old(r.sky.events) == [] ==>
              && err.None? && (requeue ==> ManagedOf(r.deployments) != map[] || !AllFinished(JobsOf(r)))
              && r.deployments == Teardown.AfterCleaning(old(r.cr.value.spec.storagePools), old(r.deployments),
                                                         old(r.sky.nodes))
    ensures Obliging(old(r.sky.events)) ==> DashedRefused(old(r.refused), r.refused)
    ensures Teardown.Supplied(old(r.cr.value.spec.storagePools), nodes, old(r.jobs)) ==>
              r.log == old(r.log) && (r.jobs == old(r.jobs) || r.jobs == map[] || err.Some?)
  {
    hide Obliging, DashedRefused, Teardown.Supplied, Uids, Teardown.Torn, Teardown.Swept, JobsAdvance, WellLogged,
      Objects.Doomed, Objects.Deleting, Managed, Later, Quiet, LetGo;
    ghost var pools, a, sky := r.cr.value.spec.storagePools, Teardown.SceneOf(r), r.sky;
    NothingDeleted(r.objects, Objects.Doomed(r.sccUsed, r.prometheusUsed));
    requeue := false;
    var cr := new Instance(r.cr.value);
    err := Teardown.CleanDeployments(r, cr.resource.spec.storagePools, nodes);
    ghost var b, sky2 := Teardown.SceneOf(r), r.sky;
    LaterMeans(sky, sky2);
    CalmStays(sky, sky2);
    if err.Some? { return; }
    Teardown.TornKeepsRecord(pools, nodes, a, b);
    err, requeue := ReconcileCleanup(r, 0);
    ghost var c, sky3 := Teardown.SceneOf(r), r.sky;
    QuietMeans(sky2, sky3, b.jobs.jobs);
    LaterMeans(sky2, sky3);
    LaterTransitive(sky, sky2, sky3);
    Teardown.TornByTime(pools, nodes, b, c);
    Teardown.TornTransitive(pools, nodes, a, b, c);
    if err.Some? || requeue { return; }
    err := Release(r, cr);
    QuietMeans(sky3, r.sky, r.jobs);
    LaterTransitive(sky, sky3, r.sky);
    FollowQuietly(pools, nodes, a, c, Teardown.SceneOf(r), sky3, r.sky, r.jobs);
  }

  /** With nothing left to clean up, everything without an owner goes, and then the finalizer. */
  method Release(r: Client, cr: Instance) returns (err: Option<Error>)
    requires r.cr == Some(cr.resource)
    modifies r`sky, r`objects, r`writes, r`cr, cr
    ensures Quiet(old(r.sky), r.sky, r.jobs)
    ensures Objects.Deleting(old(r.objects), r.objects, Objects.Doomed(r.sccUsed, r.prometheusUsed), false)
    ensures r.cr == old(r.cr) || (r.cr == LetGo(old(r.cr.value))
                                  && r.objects.Keys !! Objects.Doomed(r.sccUsed, r.prometheusUsed))
    ensures err.None? ==> r.cr == LetGo(old(r.cr.value))
    ensures old(r.sky.events) == [] ==> err.None?
  {
    hide Objects.Doomed, Quiet;
    ghost var objects, sky, doomed := r.objects, r.sky, Objects.Doomed(r.sccUsed, r.prometheusUsed);
    err := Objects.DeleteOwnerless(r);
    ghost var mid := r.sky;
    Objects.DeletingWidens(objects, r.objects, doomed, doomed, err.None?);
    QuietMeans(sky, mid, r.jobs);
    if err.Some? { return; }
    RemoveFinalizer(cr);
    err := Update(r, cr);
    QuietTransitive(sky, mid, r.sky, r.jobs);
  }

  lemma NothingDeleted(m: map<Key, Json.Tree>, doomed: set<Key>)
    ensures Objects.Deleting(m, m, doomed, false)
  {
  }

  /** Requests that touch neither deployments nor jobs are no part of a teardown. */
  lemma FollowQuietly(pools: seq<StoragePool>, nodes: set<string>, a: Teardown.Scene,
                      b: Teardown.Scene, c: Teardown.Scene, from: Sky, to: Sky, jobs: map<string, Job>)
    requires Teardown.Torn(pools, nodes, a, b) && Quiet(from, to, jobs) && b.jobs.jobs == jobs
    requires b.jobs.finished == from.finished && b.steady == from.steady
    requires c == b.(jobs := b.jobs.(finished := to.finished), steady := to.steady)
    ensures Teardown.Torn(pools, nodes, a, c)
  {
    QuietAdvances(b.jobs, c.jobs, from, to);
    Teardown.TornByTime(pools, nodes, b, c);
    Teardown.TornTransitive(pools, nodes, a, b, c);
  }

  /** Every pool with a template has its deployment on every node, and nothing else is managed. */
  ghost predicate Everywhere(pools: seq<StoragePool>, nodes: set<string>, m: map<string, Deployment>) {
    && (forall p, n | p in pools && p.template.Some? && n in nodes ::
          var k := DeploymentName(p.name, n); k in m && Managed(m[k]) && m[k].spec.node == n)
    && forall k | k in m && Managed(m[k]) :: exists p :: Teardown.MadeFor(pools, p, k, m[k])
  }

  /** A teardown in one calm run. When each pair of a pool and a node has a completed job left over, or
      takes 53 characters with the dash so that its job is refused, nothing is left to wait for: the
      finalizer goes although no job ran on nodes that were there all the time. */
  method FinalizerWithoutUnmount(r: Client, version: string, now: nat, ghost nodes: set<string>)
    returns (err: Option<Error>, requeue: bool)
    requires WellLogged(JobsOf(r)) && r.sky.events == [] && r.sky.steady == r.sky.nodes && r.cr.Some?
             && r.cr.value.deleting
    requires OnNodes(r.deployments, nodes) && AllFinished(JobsOf(r))
    requires forall p, n | p in r.cr.value.spec.storagePools && p.template.Some? && n in nodes ::
               JobName(p.name, n) in r.jobs || |p.name| + 1 + |n| == 53
    requires forall k | k in r.deployments && Managed(r.deployments[k]) ::
               exists p :: Teardown.MadeFor(r.cr.value.spec.storagePools, p, k, r.deployments[k])
    modifies r`sky, r`daemonSets, r`jobs, r`writes, r`nextUid, r`log, r`refused, r`deployments, r`claims, r`classes,
             r`objects, r`cr
    ensures err.None? && !requeue && r.cr == LetGo(old(r.cr.value)) && ManagedOf(r.deployments) == map[]
    ensures r.sky.steady == old(r.sky.steady) && r.log == old(r.log) && r.sky.finished == old(r.sky.finished)
  {
    hide JobsAdvance, WellLogged, Objects.Doomed, Objects.Deleting, Managed, Teardown.Torn, ViewMoved, Activity,
      Outcome, Quiescent, Restless, Teardown.Swept;
    ghost var a, pools := Teardown.SceneOf(r), r.cr.value.spec.storagePools;
    DashedIsSupplied(pools, nodes, r.jobs);
    ghost var course;
    err, requeue, course := Reconcile(r, version, false, now, nodes);
    TornKeeps(pools, nodes, a, Teardown.SceneOf(r));
    AllSwept(pools, a.deployments, r.deployments);
  }

  /** A teardown in two calm runs: when every managed deployment was made for a pool of the spec, the first
      run deletes them all, and once the unmount jobs completed the second takes the finalizer away. */
  method TeardownInTwoRuns(r: Client, version: string, now: nat, ghost nodes: set<string>)
    returns (err: Option<Error>, requeue: bool)
    requires WellLogged(JobsOf(r)) && r.sky.events == [] && r.sky.steady <= r.sky.nodes && r.cr.Some?
             && r.cr.value.deleting && OnNodes(r.deployments, nodes)
    requires forall k | k in r.deployments && Managed(r.deployments[k]) ::
               exists p :: Teardown.MadeFor(r.cr.value.spec.storagePools, p, k, r.deployments[k])
    modifies r`sky, r`daemonSets, r`jobs, r`writes, r`nextUid, r`log, r`refused, r`deployments, r`claims, r`classes,
             r`objects, r`cr
    ensures err.None? && !requeue && r.cr == LetGo(old(r.cr.value)) && ManagedOf(r.deployments) == map[]
  {
    hide JobsAdvance, WellLogged, Objects.Doomed, Objects.Deleting, Managed, Teardown.Torn, ViewMoved, Activity,
      Outcome, Quiescent, Restless, Teardown.Swept, Teardown.Supplied, LetGo, Teardown.MadeFor, DashedRefused,
      OnNodes, Obliging, Teardown.AfterCleaning;
    ghost var a, v, sky, pools := Teardown.SceneOf(r), JobsOf(r), r.sky, r.cr.value.spec.storagePools;
    ghost var course;
    err, requeue, course := Reconcile(r, version, false, now, nodes);
    TornKeeps(pools, nodes, a, Teardown.SceneOf(r));
    AllSwept(pools, a.deployments, r.deployments);
    CalmIsStill(sky, r.sky);
    if requeue {
      ghost var b, w := r.deployments, JobsOf(r);
      AdvanceKeepsRecord(v, w);
      // the jobs run
      r.sky := r.sky.(finished := r.sky.finished + Uids(r.jobs));
      WaitingAdvances(w, JobsOf(r));
      AdvanceKeepsRecord(w, JobsOf(r));
      NothingManaged(r.deployments, pools, r.jobs);
      ghost var c := Teardown.SceneOf(r);
      err, requeue, course := Reconcile(r, version, false, now, {});
      TornKeeps(pools, {}, c, Teardown.SceneOf(r));
      StillFinished(c.jobs, JobsOf(r));
    }
  }

  lemma NothingManaged(m: map<string, Deployment>, pools: seq<StoragePool>, jobs: map<string, Job>)
    requires ManagedOf(m) == map[]
    ensures OnNodes(m, {}) && Teardown.Supplied(pools, {}, jobs) && forall b | Kept(b, m) :: ManagedOf(b) == map[]
  {
    hide Managed;
    forall k | k in m ensures !Managed(m[k]) { assert k !in ManagedOf(m); }
  }

  lemma StillFinished(a: JobView, b: JobView)
    requires AllFinished(a) && a.finished <= b.finished
    ensures b.jobs == a.jobs || b.jobs == map[] ==> AllFinished(b)
  {
  }

  lemma DashedIsSupplied(pools: seq<StoragePool>, nodes: set<string>, jobs: map<string, Job>)
    ensures Teardown.Supplied(pools, nodes, jobs) <==>
            forall p, n | p in pools && p.template.Some? && n in nodes ::
              JobName(p.name, n) in jobs || |p.name| + 1 + |n| == 53
  {
    hide JobName;
    forall p: string, n: string ensures Dashed(JobName(p, n)) <==> |p| + 1 + |n| == 53 { JobNameStartsWithDash(p, n); }
  }

  lemma TornKeeps(pools: seq<StoragePool>, nodes: set<string>, a: Teardown.Scene, b: Teardown.Scene)
    requires Teardown.Torn(pools, nodes, a, b)
    ensures Kept(b.deployments, a.deployments)
  {
  }

  /** From a converged start, with names apart and a job on record for no other reason than that it is
      still there, one calm run takes the finalizer away exactly when that happens: it never does so
      because anything was unmounted. */
  method ReleasedAtOnce(r: Client, version: string, now: nat, ghost nodes: set<string>)
    returns (err: Option<Error>, requeue: bool)
    requires WellLogged(JobsOf(r)) && r.sky.events == [] && r.sky.steady == r.sky.nodes && nodes <= r.sky.nodes
    requires r.cr.Some? && r.cr.value.deleting && OnNodes(r.deployments, nodes)
    requires Everywhere(r.cr.value.spec.storagePools, nodes, r.deployments)
    requires Teardown.NamesApart(Teardown.PoolNames(r.cr.value.spec.storagePools), nodes)
    requires r.log.Keys == Uids(r.jobs) && r.refused == {}
    modifies r`sky, r`daemonSets, r`jobs, r`writes, r`nextUid, r`log, r`refused, r`deployments, r`claims, r`classes,
             r`objects, r`cr
    ensures err.None? && r.sky.steady == old(r.sky.steady)
    ensures r.cr == LetGo(old(r.cr.value)) <==>
            && old(AllFinished(JobsOf(r)))
            && forall p, n | p in old(r.cr.value.spec.storagePools) && p.template.Some? && n in nodes ::
                 JobName(p.name, n) in old(r.jobs) || |p.name| + 1 + |n| == 53
  {
    hide JobsAdvance, WellLogged, Objects.Doomed, Objects.Deleting, Managed, Teardown.Torn, Teardown.NamesApart, Uids,
      JobName, DeploymentName, LetGo, Teardown.Supplied, Everywhere, DashedRefused, Teardown.MadeFor, ViewMoved,
      Activity, Outcome, Quiescent, Restless, Teardown.Swept;
    ghost var a, pools, found := Teardown.SceneOf(r), r.cr.value.spec.storagePools, r.cr;
    DashedIsSupplied(pools, nodes, r.jobs);
    ghost var course;
    err, requeue, course := Reconcile(r, version, false, now, nodes);
    TornKeeps(pools, nodes, a, Teardown.SceneOf(r));
    EverywhereSwept(pools, nodes, a.deployments, r.deployments);
    if r.cr != found { ReleaseIsSupplied(pools, nodes, a, Teardown.SceneOf(r)); }
    LettingGoShows(found.value);
  }

  lemma EverywhereSwept(pools: seq<StoragePool>, nodes: set<string>, a: map<string, Deployment>,
                        b: map<string, Deployment>)
    requires Everywhere(pools, nodes, a) && Kept(b, a) && forall p | p in pools && p.template.Some? ::
               Teardown.Swept(p, b)
    ensures ManagedOf(b) == map[]
  {
    AllSwept(pools, a, b);
  }

  /** The update gives it another revision. */
  lemma LettingGoShows(a: Resource)
    ensures LetGo(a) != Some(a)
  {
  }

  /** What a release says about the start, when no job completed in between. */
  lemma ReleaseIsSupplied(pools: seq<StoragePool>, nodes: set<string>, a: Teardown.Scene, b: Teardown.Scene)
    requires Teardown.Torn(pools, nodes, a, b) && WellLogged(a.jobs) && Teardown.Released(b)
             && b.jobs.finished == a.jobs.finished
    requires Everywhere(pools, nodes, a.deployments) && nodes <= b.steady
             && Teardown.NamesApart(Teardown.PoolNames(pools), nodes)
    requires a.jobs.log.Keys == Uids(a.jobs.jobs) && DashedRefused({}, b.jobs.refused)
    ensures Teardown.Supplied(pools, nodes, a.jobs.jobs) && AllFinished(a.jobs)
  {
    hide JobName, DeploymentName, Managed, Teardown.NamesApart, Uids, Obliging, Teardown.UnmountedOrRefused;
    assert [a, b][0] == a && [a, b][1] == b;
    Teardown.SafeTeardown(pools, nodes, [a, b]);
    forall p, n | p in pools && p.template.Some? && n in nodes
      ensures JobName(p.name, n) in a.jobs.jobs || Dashed(JobName(p.name, n)) {
      assert Teardown.UnmountedOrRefused(pools, nodes, DeploymentName(p.name, n), b.jobs);
      ItsOwnJob(pools, nodes, p, n, b.jobs);
      if Done(b.jobs, JobName(p.name, n)) { DoneIsThere(a.jobs, b.jobs, JobName(p.name, n)); }
    }
  }

  lemma ItsOwnJob(pools: seq<StoragePool>, nodes: set<string>, p: StoragePool, n: string, v: JobView)
    requires Teardown.UnmountedOrRefused(pools, nodes, DeploymentName(p.name, n), v)
    requires Teardown.NamesApart(Teardown.PoolNames(pools), nodes) && p in pools && p.template.Some? && n in nodes
    ensures Done(v, JobName(p.name, n)) || JobName(p.name, n) in v.refused
  {
    hide JobName, DeploymentName, Done;
    var q, m :| && q in pools && q.template.Some? && m in nodes
                && DeploymentName(q.name, m) == DeploymentName(p.name, n)
                && (Done(v, JobName(q.name, m)) || JobName(q.name, m) in v.refused);
    assert p.name in Teardown.PoolNames(pools) && q.name in Teardown.PoolNames(pools);
    assert (p.name, n) == (q.name, m);
  }

  lemma DoneIsThere(a: JobView, b: JobView, name: string)
    requires JobsAdvance(a, b) && WellLogged(a) && b.finished == a.finished && a.log.Keys == Uids(a.jobs)
             && Done(b, name)
    ensures name in a.jobs
  {
    hide JobName;
    var uid :| uid in b.finished && uid in b.log && b.log[uid].name == name;
    assert uid in a.log && b.log[uid] == a.log[uid];
    var j :| j in a.jobs && a.jobs[j].uid == uid;
  }

  lemma AllSwept(pools: seq<StoragePool>, a: map<string, Deployment>, b: map<string, Deployment>)
    requires Kept(b, a) && forall p | p in pools && p.template.Some? :: Teardown.Swept(p, b)
    requires forall k | k in a && Cleanup.Managed(a[k]) :: exists p :: Teardown.MadeFor(pools, p, k, a[k])
    ensures ManagedOf(b) == map[]
  {
    forall k | k in a && Cleanup.Managed(a[k]) ensures k !in b {
      var p :| Teardown.MadeFor(pools, p, k, a[k]);
      assert Teardown.Swept(p, b);
    }
    assert forall k | k in b :: k in a && b[k] == a[k];
  }

  // --------------------------------------------------------------------------- any run

  /** Is there one custom resource? crowded says that there are several. */
  method FindResource(r: Client, crowded: bool) returns (err: Option<Error>, found: bool)
    modifies r`sky
    ensures Quiet(old(r.sky), r.sky, r.jobs)
    ensures found ==> err.None? && r.cr.Some? && !crowded
    ensures old(r.sky.events) == [] ==> (found <==> r.cr.Some? && !crowded)
    ensures !found && r.cr.Some? ==> err.Some?
    ensures old(r.sky.events) == [] ==> err == if crowded then Some(Several) else None
  {
    hide Uids, Obliging;
    found := false;
    var f := r.Tick();
    if ReadFails(f) { return Some(Request), false; }
    if crowded { return Some(Several), false; }
    f := r.Tick();
    if ReadFails(f) { return Some(Request), false; }
    return None, r.cr.Some?;
  }

  /** A run for the resource it found, deleting or active. */
  method ReconcileResource(r: Client, version: string, now: nat, ghost nodes: set<string>)
    returns (err: Option<Error>, requeue: bool, ghost course: Course)
    requires WellLogged(JobsOf(r)) && r.sky.steady <= r.sky.nodes && OnNodes(r.deployments, nodes) && r.cr.Some?
    modifies r`sky, r`daemonSets, r`jobs, r`writes, r`nextUid, r`log, r`refused, r`deployments, r`claims, r`classes,
             r`objects, r`cr
    ensures Later(old(r.sky), r.sky) && JobsAdvance(old(JobsOf(r)), JobsOf(r))
    ensures ViewMoved(old(ViewOf(r)), ViewOf(r))
    ensures !old(r.cr.value.deleting) ==>
              Activity(Objects.SettingOf(r, old(r.cr.value.spec)), r.name, old(r.cr.value), r.cr, version,
                       old(StoreOf(r)), StoreOf(r))

    ensures old(r.cr.value.deleting) ==>
              Dismissal(r, nodes, old(r.cr.value), old(r.objects), old(Teardown.SceneOf(r)),
                        Obliging(old(r.sky.events)))
    ensures old(r.cr.value.deleting) ==>
              r.claims == old(r.claims) && r.classes == old(r.classes) && r.daemonSets == old(r.daemonSets)

    ensures !old(r.cr.value.deleting) ==>
              Outcome(Objects.SettingOf(r, old(r.cr.value.spec)), r.name, old(r.cr.value), r.cr, version,
                      old(StoreOf(r)), StoreOf(r), course) && Answers(course, err) && !requeue
              && (old(r.sky.events) == []
                  && Versions.CanUpgrade(old(r.cr.value.observedVersion), version) == Versions.Downgrade ==>
                    err == Some(Downgraded))

    ensures old(r.cr.value.deleting) ==>
              Dismissed(old(r.cr.value), r.cr, nodes, old(Teardown.SceneOf(r)), Teardown.SceneOf(r), old(r.sky), err,
                        requeue)
    ensures Quiescent(Objects.SettingOf(r, old(r.cr.value.spec)), r.name, old(r.cr.value), old(StoreOf(r)), version)
            && Told(old(r.cr.value), old(r.deployments), old(r.claims)) ==>
              err.None? && r.cr == old(r.cr) && StoreOf(r) == old(StoreOf(r))
    ensures Restless(Objects.SettingOf(r, old(r.cr.value.spec)), r.name, old(r.cr.value), old(StoreOf(r)), version,
                     now) ==>
              Rewritten(old(r.cr.value), r.cr, old(StoreOf(r)), StoreOf(r), now, err)
  {
    hide Uids, Obliging, Ran, Teardown.Torn, JobsAdvance, WellLogged, Objects.Doomed, Passed, ViewMoved, ObjectsMoved,
      Stored, Teardown.Released, Told, Objects.Deleting, Calmly, Kept, Settles, Rewritten, Heals, Achieved, Later,
      DownSince, Complete, AllReady, PoolStatuses.ClaimsBound, Teardown.Swept, Teardown.Supplied, Managed,
      DashedRefused, LetGo;
    ghost var scene, view, a := Teardown.SceneOf(r), ViewOf(r), StoreOf(r);
    requeue, course := false, Cut;
    if r.cr.value.deleting {
      err, requeue := ReconcileDeletion(r, nodes);
      TornMoves(old(r.cr.value.spec.storagePools), nodes, scene, Teardown.SceneOf(r), view, ViewOf(r));
    } else {
      err, course := ReconcileActive(r, version, now);
      ActivityMoves(Objects.SettingOf(r, old(r.cr.value.spec)), r.name, old(r.cr.value), r.cr, version, a, StoreOf(r));
    }
  }


  /** How far a run for an active resource came, and what that means: a completed update achieved
      what the spec wants, a saved result is on record, and in a calm cluster every run that is no
            downgrade goes through and is saved; after a healthy one the resource says so. A run that was cut off
      before the update, as every downgrade is, touched nothing that is managed. */
  ghost predicate Outcome(env: Objects.Setting, owner: string, cr: Resource, now: Option<Resource>, version: string,
                          a: Store, b: Store, course: Course) {
    && (course.Through? && course.saved ==> Recorded(cr, now, version, course)) && Settles(cr, now, version, b, course)
    && (course.Through? && !course.ending.UpdateFailed? ==> Achieved(env, owner, a, b))
    && (course.Cut? ==> Untouched(a, b))
    && (Versions.CanUpgrade(cr.observedVersion, version) == Versions.Downgrade ==> course.Cut?)
    && (a.sky.events == [] && Versions.CanUpgrade(cr.observedVersion, version) != Versions.Downgrade ==>
          && course.Through? && course.saved && !course.ending.CheckFailed?
          && Heals(env, owner, a, b, course.ending.UpdateFailed?)
          && (course.ending.Reached? ==> course.before == AllReady(b.sky, cr.spec)
                                         && course.ending == Reached(course.before)))
  }

  /** What a run for an active resource leaves behind, finished or cut off anywhere. */
  ghost predicate Activity(env: Objects.Setting, owner: string, cr: Resource, now: Option<Resource>, version: string,
                           a: Store, b: Store) {
    Stored(cr, now, version) && Ran(env, owner, a, b)
  }

  lemma ActivityMoves(env: Objects.Setting, owner: string, cr: Resource, now: Option<Resource>, version: string,
                      a: Store, b: Store)
    requires Activity(env, owner, cr, now, version, a, b)
    ensures Later(a.sky, b.sky) && JobsAdvance(a.jobs, b.jobs) && ViewMoved(a.view, b.view)
  {
    hide Tidy, Later, JobsAdvance, ViewMoved, ObjectsMoved, Stored;
    TidyAnyway(env, owner, a, b, false);
  }

  /** Counted from a little earlier. */
  lemma ActivitySince(env: Objects.Setting, owner: string, cr: Resource, now: Option<Resource>, version: string,
                      a: Store, b: Store, c: Store)
    requires Activity(env, owner, cr, now, version, b, c) && a.jobs.finished == a.sky.finished
    requires Quiet(a.sky, b.sky, a.jobs.jobs)
             && b == a.(sky := b.sky, jobs := a.jobs.(finished := b.sky.finished))
    ensures Activity(env, owner, cr, now, version, a, c)
  {
    hide Ran, Quiet, Stored;
    RunsAfter(env, owner, a, b, c);
  }


  /** What a run for a deleted resource leaves behind: a step of the teardown, which refuses only names
      with a dash unless requests were refused; and the finalizer goes only when there is nothing left
      to clean up. */
  ghost predicate Dismissal(r: Client, nodes: set<string>, cr: Resource, objects: map<Key, Json.Tree>,
                            scene: Teardown.Scene, obliging: bool)
    reads r
  {
    && (obliging ==> DashedRefused(scene.jobs.refused, r.refused))
    && Teardown.Torn(cr.spec.storagePools, nodes, scene, Teardown.SceneOf(r))
    && Objects.Deleting(objects, r.objects, Objects.Doomed(r.sccUsed, r.prometheusUsed), false)
    && (r.cr != Some(cr) ==> r.cr == LetGo(cr) && Teardown.Released(Teardown.SceneOf(r))
                             && r.objects.Keys !! Objects.Doomed(r.sccUsed, r.prometheusUsed))
  }

  /** How a run for a deleted resource ends that got past looking it up: without an error its pools are
      cleaned, and if it does not ask to be repeated the operator lets go. In a calm cluster there is no error,
      it deletes just the deployments of the pools, and it asks to be repeated only for something that is left.
      Where every job is there already, or cannot be, it makes none. */
  ghost predicate Dismissed(cr: Resource, now: Option<Resource>, nodes: set<string>, a: Teardown.Scene,
                            b: Teardown.Scene, sky: Sky, err: Option<Error>, requeue: bool) {
    var pools := cr.spec.storagePools;
    && (err.None? ==> forall p | p in pools && p.template.Some? :: Teardown.Swept(p, b.deployments))
    && (err.None? && !requeue ==> now == LetGo(cr))
    && (sky.events == [] ==>
          && err.None? && (requeue ==> ManagedOf(b.deployments) != map[] || !AllFinished(b.jobs))
          && b.deployments == Teardown.AfterCleaning(pools, a.deployments, sky.nodes))
    && (Teardown.Supplied(pools, nodes, a.jobs.jobs) ==>
          b.jobs.log == a.jobs.log && (b.jobs.jobs == a.jobs.jobs || b.jobs.jobs == map[] || err.Some?))
  }

  /** One run, whatever it finds. */
  method Reconcile(r: Client, version: string, crowded: bool, now: nat, ghost nodes: set<string>)
    returns (err: Option<Error>, requeue: bool, ghost course: Course)
    requires WellLogged(JobsOf(r)) && r.sky.steady <= r.sky.nodes && OnNodes(r.deployments, nodes)
    modifies r`sky, r`daemonSets, r`jobs, r`writes, r`nextUid, r`log, r`refused, r`deployments, r`claims, r`classes,
             r`objects, r`cr
    ensures Later(old(r.sky), r.sky) && JobsAdvance(old(JobsOf(r)), JobsOf(r))
    ensures ViewMoved(old(ViewOf(r)), ViewOf(r))
    ensures old(r.cr).None? || crowded ==>
              r.cr == old(r.cr) && r.objects == old(r.objects) && ViewOf(r) == old(ViewOf(r))
              && r.daemonSets == old(r.daemonSets) && r.jobs == old(r.jobs)
              && (old(r.sky.events) == [] ==> !requeue && err == if crowded then Some(Several) else None)


    ensures old(r.cr).Some? && !old(r.cr.value.deleting) ==>
              Activity(Objects.SettingOf(r, old(r.cr.value.spec)), r.name, old(r.cr.value), r.cr, version,
                       old(StoreOf(r)), StoreOf(r))

    ensures old(r.cr).Some? && old(r.cr.value.deleting) ==>
              Dismissal(r, nodes, old(r.cr.value), old(r.objects), old(Teardown.SceneOf(r)),
                        Obliging(old(r.sky.events)))
              && r.claims == old(r.claims) && r.classes == old(r.classes) && r.daemonSets == old(r.daemonSets)

    ensures old(r.cr).Some? && !old(r.cr.value.deleting) && !crowded ==>
              Outcome(Objects.SettingOf(r, old(r.cr.value.spec)), r.name, old(r.cr.value), r.cr, version,
                      old(StoreOf(r)), StoreOf(r), course) && Answers(course, err) && !requeue
              && (old(r.sky.events) == []
                  && Versions.CanUpgrade(old(r.cr.value.observedVersion), version) == Versions.Downgrade ==>
                    err == Some(Downgraded))

    ensures old(r.cr).Some? && old(r.cr.value.deleting) && !crowded ==>
              Dismissed(old(r.cr.value), r.cr, nodes, old(Teardown.SceneOf(r)), Teardown.SceneOf(r), old(r.sky), err,
                        requeue)
    ensures old(r.cr).Some? && Quiescent(Objects.SettingOf(r, old(r.cr.value.spec)), r.name, old(r.cr.value),
                                         old(StoreOf(r)), version)
            && Told(old(r.cr.value), old(r.deployments), old(r.claims)) && !crowded ==>
              err.None? && r.cr == old(r.cr) && StoreOf(r) == old(StoreOf(r))
    ensures old(r.cr).Some? && Restless(Objects.SettingOf(r, old(r.cr.value.spec)), r.name, old(r.cr.value),
                                        old(StoreOf(r)), version, now) && !crowded ==>
              Rewritten(old(r.cr.value), r.cr, old(StoreOf(r)), StoreOf(r), now, err)
  {
    hide Uids, Obliging, Teardown.Torn, JobsAdvance, WellLogged, Objects.Doomed, Passed, ViewMoved, ObjectsMoved,
      Stored, Teardown.Released, Told, Objects.Deleting, Calmly, SettledResource, Kept, Activity, Outcome, Rewritten,
      DownSince, Complete, AllReady, PoolStatuses.ClaimsBound, Dismissed;
    ghost var v, sky, scene, view, a := JobsOf(r), r.sky, Teardown.SceneOf(r), ViewOf(r), StoreOf(r);
    requeue, course := false, Cut;
    var found;
    err, found := FindResource(r, crowded);
    ghost var w, sky2, scene2 := JobsOf(r), r.sky, Teardown.SceneOf(r);
    QuietAdvances(v, w, sky, sky2);
    LaterOn(sky, sky, sky2, r.jobs);
    NothingMoved(view, view);
    StayedPut(r, version, nodes, scene, scene2, a, StoreOf(r));

    if !found {
      if r.cr.Some? && !crowded { NotDismissed(r.cr.value, nodes, scene, scene2, sky, err.value); }
      if r.cr.Some? { NoOutcome(Objects.SettingOf(r, r.cr.value.spec), r.name, r.cr, version, a, StoreOf(r)); }
      return;
    }
    ghost var b := StoreOf(r);
    AdvanceKeepsRecord(v, w);
    ghost var cr := r.cr.value;
    err, requeue, course := ReconcileResource(r, version, now, nodes);
    OutcomeSince(Objects.SettingOf(r, cr.spec), r.name, cr, r.cr, version, a, b, StoreOf(r), course);
    JobsAdvanceTransitive(v, w, JobsOf(r));
    LaterTransitive(sky, sky2, r.sky);
    if !cr.deleting {
      ActivitySince(Objects.SettingOf(r, cr.spec), r.name, cr, r.cr, version, a, b, StoreOf(r));
    } else {
      Teardown.TornTransitive(cr.spec.storagePools, nodes, scene, scene2, Teardown.SceneOf(r));
      DismissedSince(cr, r.cr, nodes, scene, scene2, Teardown.SceneOf(r), sky, sky2, err, requeue);
    }
  }

  lemma NotDismissed(cr: Resource, nodes: set<string>, a: Teardown.Scene, b: Teardown.Scene, sky: Sky, e: Error)
    requires sky.events != [] && b.jobs.log == a.jobs.log
    ensures Dismissed(cr, Some(cr), nodes, a, b, sky, Some(e), false)
  {
  }

  lemma DismissedSince(cr: Resource, now: Option<Resource>, nodes: set<string>, a: Teardown.Scene, b: Teardown.Scene,
                       c: Teardown.Scene, sky: Sky, later: Sky, err: Option<Error>, requeue: bool)
    requires b.deployments == a.deployments && b.jobs == a.jobs.(finished := b.jobs.finished)
    requires Quiet(sky, later, a.jobs.jobs)
    ensures Dismissed(cr, now, nodes, b, c, later, err, requeue) ==> Dismissed(cr, now, nodes, a, c, sky, err, requeue)
  {
    hide Teardown.Swept, Teardown.Supplied, LetGo, Managed;
  }

  lemma NoOutcome(env: Objects.Setting, owner: string, now: Option<Resource>, version: string, a: Store, b: Store)
    requires now.Some? && Untouched(a, b)
    ensures a.sky.events != [] ==> Outcome(env, owner, now.value, now, version, a, b, Cut)
  {
  }

  lemma OutcomeSince(env: Objects.Setting, owner: string, cr: Resource, now: Option<Resource>, version: string,
                     a: Store, b: Store, c: Store, course: Course)
    requires Resumes(a, b) && Untouched(a, b) && (a.sky.events == [] ==> b == a)
    ensures Outcome(env, owner, cr, now, version, b, c, course) ==> Outcome(env, owner, cr, now, version, a, c, course)
  {
    hide Heals, Recorded, Settles, Achieved, Versions.CanUpgrade, AllReady, Resumes;
    AchievedSince(env, owner, a, b, c);
  }

  lemma TornMoves(pools: seq<StoragePool>, nodes: set<string>, a: Teardown.Scene, b: Teardown.Scene, from: View,
                  to: View)
    requires Teardown.Torn(pools, nodes, a, b) && from.deployments == a.deployments && to.deployments == b.deployments
    requires to == from.(deployments := to.deployments, writes := to.writes)
    ensures ViewMoved(from, to) && JobsAdvance(a.jobs, b.jobs)
  {
    NothingLost(from, from, {});
    assert Restarted(from, to);
  }

  /** A run that finds no resource to work on changes nothing. */
  lemma StayedPut(r: Client, version: string, nodes: set<string>, a: Teardown.Scene, b: Teardown.Scene, from: Store,
                  to: Store)
    requires Quiet(from.sky, to.sky, from.jobs.jobs) && from.jobs.finished == from.sky.finished
             && to == from.(sky := to.sky, jobs := from.jobs.(finished := to.sky.finished))
    requires JobsAdvance(a.jobs, b.jobs) && b.steady <= a.steady && b.deployments == a.deployments
             && b.jobs.log == a.jobs.log
    ensures r.cr.Some? ==> Teardown.Torn(r.cr.value.spec.storagePools, nodes, a, b)
    ensures r.cr.Some? ==>
              Activity(Objects.SettingOf(r, r.cr.value.spec), r.name, r.cr.value, r.cr, version, from, to)

    ensures Objects.Deleting(r.objects, r.objects, Objects.Doomed(r.sccUsed, r.prometheusUsed), false)
  {
    hide Ran, Quiet, Live, JobsAdvance, Teardown.Torn;
    if r.cr.Some? {
      LiveIsDistinct(r.cr.value);
      Teardown.TornByTime(r.cr.value.spec.storagePools, nodes, a, b);
      RunsAfter(Objects.SettingOf(r, r.cr.value.spec), r.name, from, to, to);
    }
  }

  lemma QuietAdvances(a: JobView, b: JobView, from: Sky, to: Sky)
    requires Quiet(from, to, a.jobs) && a.finished == from.finished && b == a.(finished := to.finished)
    ensures JobsAdvance(a, b)
  {
    WaitingAdvances(a, b);
  }

  lemma NoJobsNoUids()
    ensures Uids(map[]) == {}
  {
  }
}
