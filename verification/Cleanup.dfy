// The jobs that unmount a storage pool from a node (storagepool.go): creating them, waiting for
// them, and removing them.

module Cleanup {
  import opened Names
  import opened Cluster
  import opened CustomResource

  /** Jobs, and what is known about every job there ever was. */
  datatype JobView = JobView(jobs: map<string, Job>, finished: set<nat>, log: map<nat, JobRecord>, refused: set<string>,
                             nextUid: nat)

  ghost function JobsOf(r: Client): JobView
    reads r
  {
    JobView(r.jobs, r.sky.finished, r.log, r.refused, r.nextUid)
  }

  /** Every job is on record under its uid, and no uid is used twice. */
  ghost predicate WellLogged(v: JobView) {
    && (forall j | j in v.jobs :: v.jobs[j].uid in v.log
                                  && v.log[v.jobs[j].uid] == JobRecord(j, v.jobs[j].pool, v.jobs[j].node))
    && (forall uid | uid in v.log :: uid < v.nextUid && v.log[uid].name == JobName(v.log[uid].pool, v.log[uid].node))
    && (forall uid | uid in v.finished :: uid in v.log)
  }

  /** A job of this name completed at some time. */
  ghost predicate Done(v: JobView, name: string) {
    exists uid :: uid in v.finished && uid in v.log && v.log[uid].name == name
  }

  /** A job of this name exists or completed. */
  ghost predicate JobMade(v: JobView, name: string) {
    name in v.jobs || Done(v, name)
  }

  /** No job of this name was ever made. */
  ghost predicate Unrecorded(v: JobView, name: string) {
    forall uid | uid in v.log :: v.log[uid].name != name
  }

  /** A job of this name exists that had not completed before, or completed since. */
  ghost predicate JobSince(a: JobView, b: JobView, name: string) {
    || (name in b.jobs && b.jobs[name].uid !in a.finished)
    || exists uid :: uid in b.finished && uid !in a.finished && uid in b.log && b.log[uid].name == name
  }

  /** A job of this name exists, completed, or could not be created. */
  ghost predicate Covered(v: JobView, name: string) {
    JobMade(v, name) || name in v.refused
  }

  /** The record of jobs only grows, and a job disappears only after it completed. */
  ghost predicate JobsAdvance(a: JobView, b: JobView) {
    && (WellLogged(a) ==> WellLogged(b))
    && a.finished <= b.finished && Kept(a.log, b.log) && a.refused <= b.refused && a.nextUid <= b.nextUid
    && (forall j | j in a.jobs :: (j in b.jobs && b.jobs[j] == a.jobs[j]) || a.jobs[j].uid in b.finished)
  }

  lemma JobMadeStays(a: JobView, b: JobView, name: string)
    requires JobsAdvance(a, b) && WellLogged(a) && JobMade(a, name)
    ensures JobMade(b, name)
  {
    if name in a.jobs && !(name in b.jobs && b.jobs[name] == a.jobs[name]) {
      assert a.jobs[name].uid in b.finished && b.log[a.jobs[name].uid].name == name;
    } else if Done(a, name) {
      var uid :| uid in a.finished && uid in a.log && a.log[uid].name == name;
      assert uid in b.finished && b.log[uid].name == name;
    }
  }

  lemma CoveredStays(a: JobView, b: JobView, name: string)
    requires JobsAdvance(a, b) && WellLogged(a) && Covered(a, name)
    ensures Covered(b, name)
  {
    if JobMade(a, name) { JobMadeStays(a, b, name); }
  }

  lemma JobsAdvanceTransitive(a: JobView, b: JobView, c: JobView)
    requires JobsAdvance(a, b) && JobsAdvance(b, c)
    ensures JobsAdvance(a, c)
  {
  }

  lemma StandingAdvances(v: JobView)
    ensures JobsAdvance(v, v)
  {
  }

  /** Requests that leave the jobs alone let some of them complete. */
  lemma WaitingAdvances(a: JobView, b: JobView)
    requires b == a.(finished := b.finished, nextUid := b.nextUid) && a.nextUid <= b.nextUid
             && a.finished <= b.finished <= a.finished + Uids(a.jobs)
    ensures JobsAdvance(a, b)
  {
    if WellLogged(a) {
      forall uid | uid in Uids(a.jobs) ensures uid in a.log {
        var j :| j in a.jobs && a.jobs[j].uid == uid;
      }
    }
  }

  lemma CreatedAdvances(a: JobView, b: JobView, name: string, job: Job)
    requires name == JobName(job.pool, job.node) && job.uid == a.nextUid && name !in a.jobs
    requires b == a.(jobs := a.jobs[name := job], log := a.log[job.uid := JobRecord(name, job.pool, job.node)],
                  nextUid := a.nextUid + 1)
    requires WellLogged(a)
    ensures JobsAdvance(a, b) && Covered(b, name)
  {
  }

  lemma RefusedAdvances(a: JobView, b: JobView, name: string)
    requires b == a.(refused := a.refused + {name})
    ensures JobsAdvance(a, b) && Covered(b, name)
  {
  }

  lemma RemovedAdvances(a: JobView, b: JobView)
    requires b == a.(jobs := b.jobs) && Kept(b.jobs, a.jobs)
    requires forall j | j in a.jobs && j !in b.jobs :: a.jobs[j].uid in a.finished
    ensures JobsAdvance(a, b)
  {
  }

  // -------------------------------------------------------------------------- requests

  predicate Dashed(name: string) {
    name != "" && name[0] == '-'
  }

  /** What asking for a job does: nothing if it exists, otherwise it is created on the pool and
      node asked for, or goes down as refused. */
  ghost predicate Asked(a: JobView, b: JobView, pool: string, node: string) {
    var name := JobName(pool, node);
    if name in a.jobs then b == a.(finished := b.finished)
    else
      || b == a.(finished := b.finished, refused := a.refused + {name})
      || (!Dashed(name)
          && b == a.(finished := b.finished, jobs := a.jobs[name := Job(pool, node, a.nextUid)],
                  log := a.log[a.nextUid := JobRecord(name, pool, node)], nextUid := a.nextUid + 1))
  }

  /** Every name refused since starts with a dash. */
  ghost predicate DashedRefused(a: set<string>, b: set<string>) {
    forall name | name in b && name !in a :: Dashed(name)
  }

  lemma NoneRefused(a: set<string>)
    ensures DashedRefused(a, a)
  {
  }

  lemma StillDashed(a: set<string>, b: set<string>, c: set<string>)
    requires DashedRefused(a, b) && DashedRefused(b, c)
    ensures DashedRefused(a, c)
  {
  }

  method CreateCleanupJobForNode(r: Client, pool: string, node: string)
    requires WellLogged(JobsOf(r))
    modifies r`sky, r`jobs, r`writes, r`nextUid, r`log, r`refused
    ensures Later(old(r.sky), r.sky)
    ensures JobsAdvance(old(JobsOf(r)), JobsOf(r))
    ensures Covered(JobsOf(r), JobName(pool, node)) && Asked(old(JobsOf(r)), JobsOf(r), pool, node)
    ensures Obliging(old(r.sky.events)) ==> DashedRefused(old(r.refused), r.refused)
    ensures old(r.writes) <= r.writes
    ensures JobName(pool, node) in r.jobs <==>
            || JobName(pool, node) in old(r.jobs)
            || (!Dashed(JobName(pool, node)) && !FaultAt(old(r.sky.events), 0).Refused?)
    ensures r.sky.finished <= old(r.sky.finished) + Uids(old(r.jobs))
  {
    hide JobsAdvance, WellLogged, Covered, JobName;
    var name := JobName(pool, node);
    ghost var a := JobsOf(r);
    var f := r.Tick();
    ghost var b := JobsOf(r);
    WaitingAdvances(a, b);
    AdvanceKeepsRecord(a, b);
    r.writes := r.writes + 1;
    // the API server accepts no name that starts with a dash
    if Dashed(name) { f := Refused; }
    if name in r.jobs {
      JobCovered(b, name);
    } else if f.Refused? {
      // only logged
      r.refused := r.refused + {name};
      RefusedAdvances(b, JobsOf(r), name);
      JobsAdvanceTransitive(a, b, JobsOf(r));
    } else {
      var job := Job(pool, node, r.nextUid);
      r.jobs := r.jobs[name := job];
      r.log := r.log[r.nextUid := JobRecord(name, pool, node)];
      r.nextUid := r.nextUid + 1;
      CreatedAdvances(b, JobsOf(r), name, job);
      JobsAdvanceTransitive(a, b, JobsOf(r));
    }
  }

  lemma AdvanceKeepsRecord(a: JobView, b: JobView)
    requires JobsAdvance(a, b) && WellLogged(a)
    ensures WellLogged(b)
  {
  }

  lemma JobCovered(v: JobView, name: string)
    requires name in v.jobs
    ensures Covered(v, name)
  {
  }

  // ------------------------------------------------------- the deployments they clean up after

  /** What currentStoragePoolDeployments lists. */
  predicate Managed(d: Deployment) {
    d.controlled && "k8s-app" in d.labels && d.labels["k8s-app"] == APP
  }

  function ManagedOf(m: map<string, Deployment>): map<string, Deployment> {
    map k | k in m && Managed(m[k]) :: m[k]
  }

  /** Not controlled by the custom resource, or not labelled as the app. */
  predicate Foreign(d: Deployment) {
    !d.controlled || "k8s-app" !in d.labels || d.labels["k8s-app"] != "hostpath-provisioner"
  }

  method CurrentStoragePoolDeployments(r: Client) returns (err: Option<Error>, m: map<string, Deployment>)
    modifies r`sky
    ensures Quiet(old(r.sky), r.sky, r.jobs)
    ensures err.None? ==> m == ManagedOf(r.deployments)
    ensures err.None? ==> Kept(m, r.deployments) && forall k :: k in m <==>
                                                                k in r.deployments && !Foreign(r.deployments[k])
    ensures old(r.sky.events) == [] ==> err.None?
    ensures Smooth(old(r.sky), 1) ==> err.None? && Skipped(old(r.sky), r.sky, 1)
  {
    m := map[];
    var f := r.Tick();
    if ReadFails(f) { return Some(Request), m; }
    err := None;
    m := ManagedOf(r.deployments);
  }

  /** The job for one deployment of a pool, on the deployment's node, if that node exists. */
  method CreateCleanupJobForDeployment(r: Client, d: Deployment, pool: string)
    returns (err: Option<Error>, node: Option<string>)
    requires WellLogged(JobsOf(r))
    modifies r`sky, r`jobs, r`writes, r`nextUid, r`log, r`refused
    ensures Later(old(r.sky), r.sky)
    ensures JobsAdvance(old(JobsOf(r)), JobsOf(r))
    ensures err.None? && node.None? && old(r.sky.steady <= r.sky.nodes) ==> d.spec.node !in r.sky.steady
    ensures err.None? && node.Some? ==>
              && node.value == d.spec.node && Covered(JobsOf(r), JobName(pool, d.spec.node))
              && (JobName(pool, d.spec.node) in r.jobs <==>
                  || JobName(pool, d.spec.node) in old(r.jobs)
                  || (!Dashed(JobName(pool, d.spec.node)) && !FaultAt(old(r.sky.events), 1).Refused?))
              && (JobName(pool, d.spec.node) in r.jobs || JobName(pool, d.spec.node) in r.refused)
    ensures r.sky.finished <= old(r.sky.finished) + Uids(old(r.jobs))
    ensures JobsOf(r) == old(JobsOf(r)).(finished := r.sky.finished)
            || (err.None? && node.Some? && Asked(old(JobsOf(r)), JobsOf(r), pool, d.spec.node))
    ensures Obliging(old(r.sky.events)) ==> DashedRefused(old(r.refused), r.refused)
    ensures old(r.writes) <= r.writes
    ensures err.Some? <==> !FaultAt(old(r.sky.events), 0).Fine?
    ensures JobName(pool, d.spec.node) in old(r.jobs) || Dashed(JobName(pool, d.spec.node)) ==>
              JobsOf(r) == old(JobsOf(r)).(finished := r.sky.finished, refused := r.refused)
    ensures old(r.sky.events) == [] ==>
              && err.None? && (node.Some? <==> d.spec.node in r.sky.nodes)
              && (node.Some? ==> JobName(pool, d.spec.node) in r.jobs || Dashed(JobName(pool, d.spec.node)))
  {
    hide JobsAdvance, WellLogged, Covered, JobName;
    ghost var a := JobsOf(r);
    var f := r.Tick();
    ghost var b := JobsOf(r);
    WaitingAdvances(a, b);
    AdvanceKeepsRecord(a, b);
    if ReadFails(f) { return Some(Request), None; }
    if d.spec.node !in r.sky.nodes { return None, None; }
    CreateCleanupJobForNode(r, pool, d.spec.node);
    JobsAdvanceTransitive(a, b, JobsOf(r));
    return None, Some(d.spec.node);
  }

  // ---------------------------------------------------------------- waiting and removing

  ghost predicate AllFinished(v: JobView) {
    forall j | j in v.jobs :: v.jobs[j].uid in v.finished
  }

  method HasCleanUpFinished(r: Client) returns (err: Option<Error>, finished: bool)
    modifies r`sky
    ensures Quiet(old(r.sky), r.sky, r.jobs)
    ensures err.None? ==> (finished <==> AllFinished(JobsOf(r)))
    ensures old(r.sky.events) == [] ==> err.None?
  {
    var f := r.Tick();
    if ReadFails(f) { return Some(Request), false; }
    finished := true;
    var todo := r.jobs.Keys;
    while todo != {}
      invariant todo <= r.jobs.Keys
      invariant finished <==> forall j | j in r.jobs.Keys - todo :: r.jobs[j].uid in r.sky.finished
    {
      var j :| j in todo;
      if r.jobs[j].uid !in r.sky.finished { finished := false; }
      todo := todo - {j};
    }
    err := None;
  }

  method RemoveCleanUpJobs(r: Client) returns (err: Option<Error>)
    modifies r`sky, r`jobs, r`writes
    ensures Quiet(old(r.sky), r.sky, old(r.jobs)) && Kept(r.jobs, old(r.jobs))
    ensures err.None? ==> r.jobs == map[]
    ensures old(r.jobs) == map[] ==> r.writes == old(r.writes)
    ensures old(r.sky.events) == [] ==> err.None?
  {
    var f := r.Tick();
    if ReadFails(f) { return Some(Request); }
    var todo := r.jobs.Keys;
    while todo != {}
      invariant r.jobs.Keys <= todo <= old(r.jobs).Keys && Kept(r.jobs, old(r.jobs))
      invariant Quiet(old(r.sky), r.sky, old(r.jobs))
      invariant old(r.jobs) == map[] ==> r.writes == old(r.writes)
    {
      var j :| j in todo;
      f := r.Tick();
      r.writes := r.writes + 1;
      var reply, jobs := Deleted(r.jobs, j, f).0, Deleted(r.jobs, j, f).1;
      r.jobs := jobs;
      if reply == Failed { return Some(Request); }
      todo := todo - {j};
    }
    err := None;
  }

  /** Removes the jobs once all completed and the expected number of deployments is left. */
  method ReconcileCleanup(r: Client, count: nat) returns (err: Option<Error>, requeue: bool)
    modifies r`sky, r`jobs, r`writes
    ensures Quiet(old(r.sky), r.sky, old(r.jobs))
    ensures JobsAdvance(old(JobsOf(r)), JobsOf(r))
    ensures err.None? && !requeue ==> |ManagedOf(r.deployments)| == count && r.jobs == map[]
    ensures requeue ==> err.None? && r.jobs == old(r.jobs)
    ensures old(r.jobs) == map[] ==> r.jobs == map[] && r.writes == old(r.writes)
    ensures old(r.sky.events) == [] ==> err.None?
    ensures old(r.sky.events) == [] ==>
              (requeue <==> !(|ManagedOf(r.deployments)| == count && AllFinished(old(JobsOf(r)))))
  {
    hide JobsAdvance, WellLogged, Covered, JobName, Managed;
    requeue := false;
    ghost var a := JobsOf(r);
    var current, finished;
    err, current := CurrentStoragePoolDeployments(r);
    WaitingAdvances(a, JobsOf(r));
    if err.Some? { return; }
    err, finished := HasCleanUpFinished(r);
    ghost var b := JobsOf(r);
    WaitingAdvances(a, b);
    if err.Some? { return; }
    if |current| == count && finished {
      err := RemoveCleanUpJobs(r);
      ghost var c := b.(finished := r.sky.finished);
      WaitingAdvances(a, c);
      RemovedAdvances(c, JobsOf(r));
      JobsAdvanceTransitive(a, c, JobsOf(r));
    } else {
      requeue := true;
    }
  }
}
