// The custom resource over whole sequences of runs: its conditions and its versions.

module Lifetimes {
  import opened CustomResource
  import opened Conditions
  import opened Cluster
  import opened Lifecycle
  import opened Controller
  import opened Holdings
  import Convergence
  import Cleanup
  import DaemonSets
  import StoragePools
  import ObjectProofs
  import Objects
  import PoolStatuses
  import ServiceAccounts
  import Settling
  import Versions
  import opened VersionProofs

  // --------------------------------------------------------- the life of the custom resource

  /** What anybody else does to the resource: anything but change its status. */
  ghost predicate Edited(a: Resource, b: Resource) {
    && b.conditions == a.conditions && b.observedVersion == a.observedVersion && b.operatorVersion == a.operatorVersion
    && b.targetVersion == a.targetVersion && b.poolStatuses == a.poolStatuses
  }

  /** Runs of operators of any versions, and edits in between. */
  ghost predicate Life(trace: seq<Resource>, versions: seq<string>) {
    |versions| == |trace| && forall i | 0 <= i < |trace| - 1 ::
      Stored(trace[i], Some(trace[i + 1]), versions[i]) || Edited(trace[i], trace[i + 1])
  }

  /** Once live, always live: over every run the stored conditions are empty, before anything was
      deployed, or hold one entry per kind in one of the five phases. */
  lemma {:induction false} AlwaysLive(trace: seq<Resource>, versions: seq<string>, i: nat)
    requires Life(trace, versions) && i < |trace| && Live(trace[0])
    ensures Live(trace[i])
  {
    hide Stored, Edited, Live;
    if i > 0 {
      AlwaysLive(trace, versions, i - 1);
      StepLive(trace[i - 1], trace[i - 1 + 1], versions[i - 1]);
    }
  }

  lemma StepLive(a: Resource, b: Resource, version: string)
    requires (Stored(a, Some(b), version) || Edited(a, b)) && Live(a)
    ensures Live(b)
  {
  }

  ghost predicate Parses(version: string) {
    Versions.Parse(version).Some?
  }

  lemma OneStepForward(a: Resource, b: Resource, version: string)
    requires Stored(a, Some(b), version) || Edited(a, b)
    requires Parses(version) && (a.observedVersion == "" || Parses(a.observedVersion))
    ensures b.observedVersion == "" || Parses(b.observedVersion)
    ensures a.observedVersion != "" ==> NotAfter(a.observedVersion, b.observedVersion)
  {
    hide KindsKept, Live, Versions.Parse, Versions.CanUpgrade, NotAfter;
    NotAfterOrder(a.observedVersion, version, version);
  }

  /** For versions that parse, no later observed version comes before an earlier one in precedence, and
      none becomes empty again. */
  lemma {:induction false} VersionsMoveForward(trace: seq<Resource>, versions: seq<string>, i: nat, j: nat)
    requires Life(trace, versions) && i <= j < |trace|
    requires forall k | 0 <= k < |versions| :: Parses(versions[k])
    requires trace[i].observedVersion == "" || Parses(trace[i].observedVersion)
    ensures trace[j].observedVersion == "" || Parses(trace[j].observedVersion)
    ensures trace[i].observedVersion != "" ==>
              trace[j].observedVersion != "" && NotAfter(trace[i].observedVersion, trace[j].observedVersion)
  {
    hide Stored, Versions.Parse, NotAfter;
    assert !Parses("") by { EmptyIsNoVersion(); }
    NotAfterOrder(trace[i].observedVersion, trace[i].observedVersion, trace[i].observedVersion);
    if i < j {
      VersionsMoveForward(trace, versions, i, j - 1);
      OneStepForward(trace[j - 1], trace[j - 1 + 1], versions[j - 1]);
      NotAfterOrder(trace[i].observedVersion, trace[j - 1].observedVersion, trace[j].observedVersion);
      NotAfterParses(trace[j - 1].observedVersion, trace[j].observedVersion);
    }
  }

  lemma NotAfterParses(a: string, b: string)
    ensures NotAfter(a, b) ==> Parses(a) && Parses(b)
  {
  }

  lemma EmptyIsNoVersion()
    ensures !Parses("")
  {
  }

  /** What a run in a calm cluster that is no downgrade leaves stored: healing when update or pools
      failed, and otherwise, by whether the daemon sets are ready, healthy, deploying or failed. The
      observed version moves with the healthy state and with no other. */
  lemma EndStates(env: Objects.Setting, owner: string, cr: Resource, now: Option<Resource>, version: string, a: Store,
                  b: Store, course: Course)
    requires Outcome(env, owner, cr, now, version, a, b, course) && a.sky.events == [] && Distinct(cr.conditions)
    requires Versions.CanUpgrade(cr.observedVersion, version) != Versions.Downgrade
    ensures course.Through? && now.Some? && now.value.observedVersion in {cr.observedVersion, version}
    ensures var failed := !course.ending.Reached?;
            && Statuses(now.value.conditions) == (
                                                   if failed then Triple(No, Yes, Yes)
                                                   else if AllReady(b.sky, cr.spec) then Triple(Yes, No, No)
                                                   else if cr.observedVersion == "" then Triple(No, Yes, No)
                                                   else Triple(No, No, Yes))
            && now.value.observedVersion == if !failed && AllReady(b.sky, cr.spec) then version else cr.observedVersion
  {
    hide Achieved, Settles, Heals, AllReady, Versions.CanUpgrade, Distinct, Statuses;
  }

  // ----------------------------------------------------------------------------- healing

  /** One run for an active resource: what it found and left, of the resource and of everything else. */
  datatype Round = Round(cr: Resource, now: Option<Resource>, found: Store, left: Store, course: Course)

  /** Runs in a calm cluster by an operator that is not too old. */
  ghost predicate Rounds(env: Objects.Setting, owner: string, version: string, rounds: seq<Round>) {
    && (forall i | 0 <= i < |rounds| ::
          var x := rounds[i];
          && Outcome(env, owner, x.cr, x.now, version, x.found, x.left, x.course) && x.found.sky.events == []
          && Versions.CanUpgrade(x.cr.observedVersion, version) != Versions.Downgrade)
    && forall i | 0 <= i < |rounds| - 1 :: Settling.Meanwhile(rounds[i].left, rounds[i + 1].found)
  }

  /** Where a run stands that can make it: live CSI pods on nodes that exist, objects the API server
      vouches for, and at most so many obstacles. */
  ghost predicate Healing(env: Objects.Setting, s: Store, obstacles: nat) {
    ObjectProofs.WellFormed(env, s.objects, Tracked) && HousedIn(s) && Obstacles(s, env.spec) <= obstacles
  }

  lemma HealingStep(env: Objects.Setting, owner: string, cr: Resource, now: Option<Resource>, version: string, a: Store,
                    b: Store, course: Course, obstacles: nat)
    requires Outcome(env, owner, cr, now, version, a, b, course) && a.sky.events == [] && Healing(env, a, obstacles)
    requires Versions.CanUpgrade(cr.observedVersion, version) != Versions.Downgrade
    ensures course.Through? && course.saved && Healing(env, b, if obstacles > 0 then obstacles - 1 else 0)
    ensures obstacles == 0 ==>
              !course.ending.UpdateFailed? && Met(env, owner, b)
  {
    hide Recorded, Settles, ObjectsMoved, ObjectProofs.WellFormed, HousedIn, Objects.Mendable, Tracked, AllReady,
      ServiceAccounts.HasAccounts, DaemonSets.JunkCount, DaemonSets.AllCurrent, StoragePools.Converged, PairsWanted,
      Versions.CanUpgrade;
    ObjectProofs.WellFormedMends(env, a.objects, Tracked);
    Settling.WellFormedStays(env, owner, a.objects, b.objects);
  }

  lemma {:induction false} HealingRounds(env: Objects.Setting, owner: string, version: string, rounds: seq<Round>,
                                         i: nat)
    requires Rounds(env, owner, version, rounds) && i < |rounds| && Healing(env, rounds[0].found, 3)
    ensures Healing(env, rounds[i].found, if i < 3 then 3 - i else 0)
  {
    hide Outcome, Obstacles, ObjectProofs.WellFormed, HousedIn, Versions.CanUpgrade;
    if i > 0 {
      HealingRounds(env, owner, version, rounds, i - 1);
      var x, left := rounds[i - 1], if i - 1 < 3 then 3 - (i - 1) else 0;
      HealingStep(env, owner, x.cr, x.now, version, x.found, x.left, x.course, left);
      assert Settling.Meanwhile(x.left, rounds[i - 1 + 1].found);
      SameObstacles(x.left, rounds[i].found, env.spec);
    }
  }

  lemma HealingStarts(env: Objects.Setting, s: Store)
    requires ObjectProofs.WellFormed(env, s.objects, Tracked) && HousedIn(s)
    ensures Healing(env, s, 3)
  {
    Settling.FewObstacles(s, env.spec);
  }

  lemma SameObstacles(a: Store, b: Store, spec: Spec)
    requires Settling.Meanwhile(a, b)
    ensures Obstacles(b, spec) == Obstacles(a, spec)
  {
  }

  /** Over runs in a calm cluster, with pods starting and stopping in between, from any state whose live
      CSI pods sit on nodes that exist: from the fourth run on every update completes, and daemon sets
      and pools are as the spec wants them. */
  lemma RunsHealWithinFour(env: Objects.Setting, owner: string, version: string, rounds: seq<Round>, i: nat)
    requires Rounds(env, owner, version, rounds) && i < |rounds|
    requires ObjectProofs.WellFormed(env, rounds[0].found.objects, Tracked) && HousedIn(rounds[0].found)
    ensures rounds[i].course.Through? && rounds[i].course.saved
    ensures i >= 3 ==>
              && !rounds[i].course.ending.UpdateFailed?
              && Met(env, owner, rounds[i].left)
  {
    hide Outcome, Obstacles, ObjectProofs.WellFormed, HousedIn, Versions.CanUpgrade, DaemonSets.AllCurrent,
      StoragePools.Converged;
    HealingStarts(env, rounds[0].found);
    HealingRounds(env, owner, version, rounds, i);
    var x := rounds[i];
    HealingStep(env, owner, x.cr, x.now, version, x.found, x.left, x.course, if i < 3 then 3 - i else 0);
  }

  /** The resource a run may leave for the next one. */
  lemma CarriesOn(cr: Resource, now: Option<Resource>, version: string, course: Course)
    requires Stored(cr, now, version) && Recorded(cr, now, version, course) && !cr.deleting
    requires Versions.CanUpgrade(cr.observedVersion, version) != Versions.Downgrade
    ensures now.Some? && now.value.spec == cr.spec && !now.value.deleting
    ensures Versions.CanUpgrade(now.value.observedVersion, version) != Versions.Downgrade
  {
    hide Live, KindsKept, Distinct, Statuses, Versions.Parse;
  }

  lemma OutcomeIsRecorded(env: Objects.Setting, owner: string, cr: Resource, now: Option<Resource>, version: string,
                          a: Store, b: Store, course: Course)
    requires Outcome(env, owner, cr, now, version, a, b, course) && course.Through? && course.saved
    ensures Recorded(cr, now, version, course)
  {
  }

  /** A calm cluster with a live resource that a run for it can heal. */
  ghost predicate Underway(env: Objects.Setting, s: Store, cr: Option<Resource>, version: string, obstacles: nat) {
    && Cleanup.WellLogged(s.jobs) && s.sky.steady <= s.sky.nodes && s.sky.events == []
    && cr.Some? && !cr.value.deleting && cr.value.spec == env.spec
    && Versions.CanUpgrade(cr.value.observedVersion, version) != Versions.Downgrade && Healing(env, s, obstacles)
  }

  lemma UnderwayStarts(env: Objects.Setting, s: Store, cr: Option<Resource>, version: string)
    requires Cleanup.WellLogged(s.jobs) && s.sky.steady <= s.sky.nodes && s.sky.events == [] && HousedIn(s)
    requires cr.Some? && !cr.value.deleting && cr.value.spec == env.spec
    requires Versions.CanUpgrade(cr.value.observedVersion, version) != Versions.Downgrade
    requires ObjectProofs.WellFormed(env, s.objects, Tracked)
    ensures Underway(env, s, cr, version, 3)
  {
    HealingStarts(env, s);
  }

  /** Daemon sets and pools are as the spec wants them. */
  ghost predicate Met(env: Objects.Setting, owner: string, s: Store) {
    && DaemonSets.AllCurrent(s.daemonSets, owner, env.spec)
    && StoragePools.Converged(s.view, PairsWanted(env.spec, s.daemonSets, s.pods))
  }

  lemma StillUnderway(env: Objects.Setting, owner: string, cr: Resource, now: Option<Resource>, version: string,
                      a: Store, b: Store, course: Course, obstacles: nat)
    requires Underway(env, a, Some(cr), version, obstacles)
    requires Outcome(env, owner, cr, now, version, a, b, course) && Stored(cr, now, version)
    requires Later(a.sky, b.sky) && Cleanup.JobsAdvance(a.jobs, b.jobs)
    ensures course.Through? && course.saved
    ensures Underway(env, b, now, version, if obstacles > 0 then obstacles - 1 else 0)
    ensures obstacles == 0 ==>
              !course.ending.UpdateFailed? && Met(env, owner, b)
  {
    hide Outcome, Healing, Versions.CanUpgrade, DaemonSets.AllCurrent, StoragePools.Converged, Cleanup.WellLogged,
      Stored, Recorded, PairsWanted, Later, Cleanup.JobsAdvance;
    HealingStep(env, owner, cr, now, version, a, b, course, obstacles);
    OutcomeIsRecorded(env, owner, cr, now, version, a, b, course);
    CarriesOn(cr, now, version, course);
    Cleanup.AdvanceKeepsRecord(a.jobs, b.jobs);
    LaterMeans(a.sky, b.sky);
    CalmStays(a.sky, b.sky);
  }

  /** One of these runs. */
  method RunOnce(r: Client, version: string, now: nat, ghost env: Objects.Setting, ghost obstacles: nat)
    returns (ghost course: Course)
    requires env == Objects.SettingOf(r, env.spec) && Underway(env, StoreOf(r), r.cr, version, obstacles)
    modifies r`sky, r`daemonSets, r`jobs, r`writes, r`nextUid, r`log, r`refused, r`deployments, r`claims, r`classes,
             r`objects, r`cr
    ensures course.Through? && course.saved
    ensures Underway(env, StoreOf(r), r.cr, version, if obstacles > 0 then obstacles - 1 else 0)
    ensures obstacles == 0 ==>
              !course.ending.UpdateFailed? && Met(env, r.name, StoreOf(r))
  {
    hide Outcome, Healing, Versions.CanUpgrade, DaemonSets.AllCurrent, Stored, StoragePools.Converged,
      Cleanup.WellLogged, Quiescent, Restless, Rewritten, Told, Cleanup.JobsAdvance, Convergence.ViewMoved,
      ObjectsMoved, PairsWanted, Recorded, OnNodes, Later;
    ghost var a, cr := StoreOf(r), r.cr.value;
    ghost var theirs := set k | k in r.deployments :: r.deployments[k].spec.node;
    SomeNodes(r.deployments);
    var err, again;
    err, again, course := Reconcile(r, version, false, now, theirs);
    StillUnderway(env, r.name, cr, r.cr, version, a, StoreOf(r), course, obstacles);
  }

  /** All runs went through and were saved, and from the fourth on their updates completed. */
  ghost predicate AllThrough(courses: seq<Course>) {
    forall i | 0 <= i < |courses| ::
      courses[i].Through? && courses[i].saved && (i >= 3 ==> !courses[i].ending.UpdateFailed?)
  }

  lemma NoneThrough()
    ensures AllThrough([])
  {
  }

  lemma OneMoreThrough(courses: seq<Course>, course: Course)
    requires AllThrough(courses) && course.Through? && course.saved
    requires |courses| >= 3 ==> !course.ending.UpdateFailed?
    ensures AllThrough(courses + [course])
  {
  }

  /** Run after run in a calm cluster, whatever was there to begin with: all are stored, the update of the
      fourth completes, as does every later one, and the spec is met. */
  method RunOften(r: Client, version: string, clocks: seq<nat>) returns (ghost courses: seq<Course>)
    requires Cleanup.WellLogged(Cleanup.JobsOf(r)) && r.sky.steady <= r.sky.nodes && r.sky.events == []
    requires r.cr.Some? && !r.cr.value.deleting && HousedIn(StoreOf(r))
    requires Versions.CanUpgrade(r.cr.value.observedVersion, version) != Versions.Downgrade
    requires ObjectProofs.WellFormed(Objects.SettingOf(r, r.cr.value.spec), r.objects, Tracked)
    modifies r`sky, r`daemonSets, r`jobs, r`writes, r`nextUid, r`log, r`refused, r`deployments, r`claims, r`classes,
             r`objects, r`cr
    ensures |courses| == |clocks|
    ensures AllThrough(courses)
    ensures |clocks| > 3 ==>
              Met(Objects.SettingOf(r, old(r.cr.value.spec)), r.name, StoreOf(r))
  {
    hide HousedIn, ObjectProofs.WellFormed, Versions.CanUpgrade, Cleanup.WellLogged, Met, Underway, AllThrough;
    UnderwayStarts(Objects.SettingOf(r, r.cr.value.spec), StoreOf(r), r.cr, version);
    courses := KeepRunning(r, version, clocks, Objects.SettingOf(r, r.cr.value.spec));
  }

  method KeepRunning(r: Client, version: string, clocks: seq<nat>, ghost env: Objects.Setting)
    returns (ghost courses: seq<Course>)
    requires env == Objects.SettingOf(r, env.spec) && Underway(env, StoreOf(r), r.cr, version, 3)
    modifies r`sky, r`daemonSets, r`jobs, r`writes, r`nextUid, r`log, r`refused, r`deployments, r`claims, r`classes,
             r`objects, r`cr
    ensures |courses| == |clocks| && AllThrough(courses)
    ensures |clocks| > 3 ==> Met(env, r.name, StoreOf(r))
  {
    hide *;
    courses := [];
    NoneThrough();
    for i := 0 to |clocks|
      invariant Underway(env, StoreOf(r), r.cr, version, if i < 3 then 3 - i else 0)
      invariant |courses| == i && AllThrough(courses)
      invariant i > 3 ==> Met(env, r.name, StoreOf(r))
    {
      ghost var course := RunOnce(r, version, clocks[i], env, if i < 3 then 3 - i else 0);
      OneMoreThrough(courses, course);
      courses := courses + [course];
    }
  }

  // ------------------------------------------------------------------------- quiescence

  /** A run for a settled resource, with nothing to do and ready daemon sets, leaves it as it was but
      for heartbeats exactly when every claim is bound. */
  lemma QuietIffBound(env: Objects.Setting, owner: string, cr: Resource, end: Resource, a: Store, b: Store,
                      version: string, now: nat, err: Option<Error>, before: bool, ending: Ending)
    requires a.sky.events == [] && SettledResource(cr, version) && env.spec == cr.spec && Calmly(env, owner, a)
             && AllReady(a.sky, cr.spec)
    requires LiveRun(env, owner, a, b, !ending.UpdateFailed?) && a.jobs.finished == a.sky.finished
    requires Worked(cr, end, version, now, true, b, err, before, ending)
    ensures SameButHeartbeats(cr.conditions, end.conditions) <==> PoolStatuses.ClaimsBound(cr.spec, a.view.claims)
  {
    hide LiveRun, Calmly, AllReady, Worked, PoolStatuses.ClaimsBound, SameButHeartbeats, Shows, FINALIZER, COMPLETE,
      AVAILABLE;
    ShownIsUp(cr.conditions);
    if PoolStatuses.ClaimsBound(cr.spec, a.view.claims) {
      HealthyEnds(env, owner, cr, end, a, b, version, now, err, before, ending);
    } else {
      RestlessEnds(env, owner, cr, end, a, b, version, now, err, before, ending);
      FailingAgainShows(cr.conditions, COMPLETE, AVAILABLE, POOLS_NOT_READY, Describe(err.value), now);
      assert !DownSince(cr.conditions, now);
    }
  }

  lemma HealthyEnds(env: Objects.Setting, owner: string, cr: Resource, end: Resource, a: Store, b: Store,
                    version: string, now: nat, err: Option<Error>, before: bool, ending: Ending)
    requires Quiescent(env, owner, cr, a, version) && LiveRun(env, owner, a, b, !ending.UpdateFailed?)
             && a.jobs.finished == a.sky.finished
    requires Worked(cr, end, version, now, true, b, err, before, ending)
    ensures SameButHeartbeats(cr.conditions, end.conditions)
  {
    hide LiveRun, Calmly, AllReady, PoolStatuses.ClaimsBound, SameButHeartbeats, Shows, FINALIZER, COMPLETE, AVAILABLE,
      Marked, Quiescent;
    QuiescentMeans(env, owner, cr, a, version, now);
    CalmIsIdle(env, owner, a, b, !ending.UpdateFailed?);
  }

  lemma ShownIsUp(cs: seq<Condition>)
    ensures Shows(cs, Healthy, COMPLETE, AVAILABLE) ==> Complete(cs) && forall now :: !DownSince(cs, now)
  {
  }

  /** With a claim that is not bound, every run writes the resource again: the state it leaves is one
      that a run at any other time rewrites. */
  lemma RestlessAgain(env: Objects.Setting, owner: string, cr: Resource, stored: Option<Resource>, a: Store, b: Store,
                      version: string, now: nat, err: Option<Error>, later: nat)
    requires Restless(env, owner, cr, a, version, now) && Rewritten(cr, stored, a, b, now, err) && later != now
    ensures stored.Some? && Restless(env, owner, stored.value, b, version, later)
  {
    hide AllReady, PoolStatuses.ClaimsBound, FINALIZER, COMPLETE, AVAILABLE, POOLS_NOT_READY, Describe, Marked,
      AllAtRest, Distinct, Complete;
    var mid := Marked(cr.conditions, Healthy, COMPLETE, AVAILABLE, now);
    CompleteIsDistinct(cr.conditions);
    MarkSetsPhase(cr.conditions, Healthy, COMPLETE, AVAILABLE, now);
    CompleteIsDistinct(mid);
    MarkSetsPhase(mid, FailedHealing, POOLS_NOT_READY, Describe(err.value), now);
    FailingAgainShows(cr.conditions, COMPLETE, AVAILABLE, POOLS_NOT_READY, Describe(err.value), now);
    StillAtRest(env, owner, a, b);
  }

  lemma StillAtRest(env: Objects.Setting, owner: string, a: Store, b: Store)
    requires b == a.(view := a.view.(writes := b.view.writes))
    ensures AllAtRest(env, owner, b) <==> AllAtRest(env, owner, a)
  {
  }

  /** What a run finds, when, and the error it ends with. */
  datatype Moment = Moment(cr: Resource, store: Store, clock: nat, err: Option<Error>)

  /** Runs at different times, each as Reconcile promises for a resource with an unbound claim. */
  ghost predicate Rerun(env: Objects.Setting, owner: string, version: string, trace: seq<Moment>) {
    forall i | 0 <= i < |trace| - 1 ::
      && trace[i + 1].clock != trace[i].clock
      && (Restless(env, owner, trace[i].cr, trace[i].store, version, trace[i].clock) ==>
            Rewritten(trace[i].cr, Some(trace[i + 1].cr), trace[i].store, trace[i + 1].store, trace[i].clock,
                      trace[i].err))
  }

  /** So it never comes to rest: the number of writes grows with the number of runs. */
  lemma {:induction false} NeverAtRest(env: Objects.Setting, owner: string, version: string, trace: seq<Moment>, i: nat)
    requires Rerun(env, owner, version, trace) && i < |trace|
    requires Restless(env, owner, trace[0].cr, trace[0].store, version, trace[0].clock)
    ensures Restless(env, owner, trace[i].cr, trace[i].store, version, trace[i].clock)
    ensures trace[i].store.view.writes == trace[0].store.view.writes + i
            && trace[i].cr.revision == trace[0].cr.revision + i
  {
    hide Restless;
    if i > 0 {
      NeverAtRest(env, owner, version, trace, i - 1);
      var from, to := trace[i - 1], trace[i - 1 + 1];
      RestlessAgain(env, owner, from.cr, Some(to.cr), from.store, to.store, version, from.clock, from.err, to.clock);
    }
  }

  /** One completed, healthy run settles the resource: what the next one finds, with pools that agree,
      no job left and at most one claim for each pool, is quiescent, and it tells the only story. */
  lemma HealthyRunSettles(env: Objects.Setting, owner: string, cr: Resource, now: Option<Resource>, version: string,
                          a: Store, b: Store)
    requires Outcome(env, owner, cr, now, version, a, b, Through(true, Reached(true), true))
    requires version != "" && Distinct(cr.conditions) && env.spec == cr.spec
    requires ServiceAccounts.HasAccounts(a.objects, env.spec) && ObjectProofs.WellFormed(env, a.objects, Tracked)
    requires Settleable(env, b)
    ensures now.Some? && Quiescent(env, owner, now.value, b, version) && now.value.spec == cr.spec
    ensures Told(now.value, b.view.deployments, b.view.claims)
  {
    hide Distinct, ServiceAccounts.HasAccounts, ObjectProofs.WellFormed, AllReady, ObjectsMoved, Recorded,
      SettledResource, PoolStatuses.ClaimsBound, AllAtRest, Convergence.Agree, HousedIn, Told, PoolStatuses.Reports,
      DaemonSets.AllCurrent, StoragePools.Converged;
    Settling.CompletedIsAtRest(env, owner, a, b);
    if !IsLegacy(cr.spec) { ToldIffOneClaimEach(now.value, b.view.deployments, b.view.claims); }
    else { LegacyIsTold(now.value, b.view.deployments, b.view.claims); }
  }

  lemma LegacyIsTold(a: Resource, deployments: map<string, Deployment>, claims: map<string, Claim>)
    requires IsLegacy(a.spec) && Reported(a, deployments, claims)
    ensures Told(a, deployments, claims)
  {
  }

  /** A calm cluster with ready daemon sets on nodes that exist, no job left, and pools that agree, with
      distinct names and at most one claim each. */
  ghost predicate Settleable(env: Objects.Setting, s: Store) {
    && s.sky.events == [] && s.jobs.jobs == map[] && HousedIn(s) && AllReady(s.sky, env.spec)
    && Convergence.Agree(PairsWanted(env.spec, s.daemonSets, s.pods))
    && Settling.Unrepeated(Settling.PoolNames(env.spec.storagePools))
    && forall p | p in env.spec.storagePools && p.template.Some? :: |PoolStatuses.ClaimsOf(s.view.claims, p.name)| <= 1
  }

  /** A resource that reports what is there, on distinct pool names, is the only report a run can make
      exactly when no pool has more than one claim. */
  lemma ToldIffOneClaimEach(a: Resource, deployments: map<string, Deployment>, claims: map<string, Claim>)
    requires !IsLegacy(a.spec) && PoolStatuses.Reports(a.poolStatuses, a.spec.storagePools, deployments, claims)
    requires Settling.Unrepeated(Settling.PoolNames(a.spec.storagePools))
    ensures Told(a, deployments, claims) <==>
            forall p | p in a.spec.storagePools && p.template.Some? :: |PoolStatuses.ClaimsOf(claims, p.name)| <= 1
  {
    hide PoolStatuses.Reports, PoolStatuses.ClaimsOf, Settling.Unrepeated;
    var pools := a.spec.storagePools;
    if forall p | p in pools && p.template.Some? :: |PoolStatuses.ClaimsOf(claims, p.name)| <= 1 {
      forall s | PoolStatuses.Reports(s, pools, deployments, claims) ensures s == a.poolStatuses {
        Settling.ReportsUnique(s, a.poolStatuses, pools, deployments, claims);
      }
    } else {
      var p :| p in pools && p.template.Some? && |PoolStatuses.ClaimsOf(claims, p.name)| > 1;
      Settling.AnotherReport(a.poolStatuses, pools, deployments, claims, p);
    }
  }

  /** Two runs, the second right after the first: if that was healthy, the second writes nothing. */
  method RunTwice(r: Client, version: string, now: nat, later: nat, ghost nodes: set<string>)
    returns (err: Option<Error>, ghost course: Course, ghost between: Store, ghost left: Option<Resource>)
    requires Cleanup.WellLogged(Cleanup.JobsOf(r)) && r.sky.steady <= r.sky.nodes && OnNodes(r.deployments, nodes)
             && r.sky.events == []
    requires r.cr.Some? && !r.cr.value.deleting && version != "" && Distinct(r.cr.value.conditions)
    requires ServiceAccounts.HasAccounts(r.objects, r.cr.value.spec)
    requires ObjectProofs.WellFormed(Objects.SettingOf(r, r.cr.value.spec), r.objects, Tracked)
    modifies r`sky, r`daemonSets, r`jobs, r`writes, r`nextUid, r`log, r`refused, r`deployments, r`claims, r`classes,
             r`objects, r`cr
    ensures course == Through(true, Reached(true), true)
            && Settleable(Objects.SettingOf(r, old(r.cr.value.spec)), between) ==>
              err.None? && StoreOf(r) == between && r.cr == left
  {
    hide Settleable, Quiescent, Told, Outcome, ObjectProofs.WellFormed, ServiceAccounts.HasAccounts, Cleanup.WellLogged,
      Activity, Restless, Rewritten, Distinct, Cleanup.JobsAdvance, Convergence.ViewMoved, OnNodes;
    ghost var env, cr, a, v := Objects.SettingOf(r, r.cr.value.spec), r.cr.value, StoreOf(r), Cleanup.JobsOf(r);
    var requeue, again;
    err, requeue, course := Reconcile(r, version, false, now, nodes);
    between, left := StoreOf(r), r.cr;
    Cleanup.AdvanceKeepsRecord(v, Cleanup.JobsOf(r));
    if course == Through(true, Reached(true), true) && Settleable(env, between) {
      HealthyRunSettles(env, r.name, cr, left, version, a, between);
    }
    ghost var theirs := set k | k in r.deployments :: r.deployments[k].spec.node;
    assert OnNodes(r.deployments, theirs) by { SomeNodes(r.deployments); }
    ghost var course2;
    err, again, course2 := Reconcile(r, version, false, later, theirs);
  }

  lemma SomeNodes(m: map<string, Deployment>)
    ensures OnNodes(m, set k | k in m :: m[k].spec.node)
  {
  }
}
