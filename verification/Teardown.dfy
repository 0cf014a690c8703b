// Tearing pools down when the custom resource is deleted (cleanDeployments in storagepool.go), and
// what that guarantees over all the runs it takes until the finalizer is removed.

module Teardown {
  import opened CustomResource
  import opened Names
  import opened Cluster
  import opened Cleanup

  /** What matters to a teardown. */
  datatype Scene = Scene(deployments: map<string, Deployment>, jobs: JobView, steady: set<string>)

  ghost function SceneOf(r: Client): Scene
    reads r
  {
    Scene(r.deployments, JobsOf(r), r.sky.steady)
  }

  /** Some pool of the spec gives rise to this deployment name, and the job that unmounts that
      pool from that node exists, completed, or was refused. */
  ghost predicate CoveredPair(pools: seq<StoragePool>, nodes: set<string>, k: string, v: JobView) {
    exists p, n :: p in pools && p.template.Some? && n in nodes && DeploymentName(p.name, n) == k
                   && Covered(v, JobName(p.name, n))
  }

  /** A deployment may go when its node left or its pool is being unmounted. */
  ghost predicate Excused(pools: seq<StoragePool>, nodes: set<string>, k: string, d: Deployment, s: Scene) {
    d.spec.node !in s.steady || CoveredPair(pools, nodes, k, s.jobs)
  }

  /** A job made for a pool with a claim template, on one of these nodes, under a name the API
      server accepts. */
  ghost predicate Ours(pools: seq<StoragePool>, nodes: set<string>, job: JobRecord) {
    !Dashed(job.name) && job.node in nodes && exists p :: p in pools && p.template.Some? && p.name == job.pool
  }

  /** A deployment of the custom resource with the app label, or one that has the name of a pool of the
      spec on one of these nodes. */
  ghost predicate Targeted(pools: seq<StoragePool>, nodes: set<string>, k: string, d: Deployment) {
    Managed(d) || exists p, n :: p in pools && p.template.Some? && n in nodes && DeploymentName(p.name, n) == k
  }

  /** What a teardown run does, finished or cut off anywhere, and what time does between runs:
      no deployment appears or changes, none goes without excuse or that is none of the operator's
      business, and no job goes before it completed. */
  ghost predicate Torn(pools: seq<StoragePool>, nodes: set<string>, a: Scene, b: Scene) {
    && JobsAdvance(a.jobs, b.jobs) && b.steady <= a.steady && Kept(b.deployments, a.deployments)
    && (WellLogged(a.jobs) ==> forall k | k in a.deployments && k !in b.deployments ::
            Excused(pools, nodes, k, a.deployments[k], b))
    && (forall k | k in a.deployments && k !in b.deployments :: Targeted(pools, nodes, k, a.deployments[k]))
    && (forall uid | uid in b.jobs.log && uid !in a.jobs.log :: Ours(pools, nodes, b.jobs.log[uid]))
  }

  lemma ExcusedStays(pools: seq<StoragePool>, nodes: set<string>, k: string, d: Deployment, a: Scene, b: Scene)
    requires Excused(pools, nodes, k, d, a) && JobsAdvance(a.jobs, b.jobs) && b.steady <= a.steady && WellLogged(a.jobs)
    ensures Excused(pools, nodes, k, d, b)
  {
    if CoveredPair(pools, nodes, k, a.jobs) {
      var p, n :| p in pools && p.template.Some? && n in nodes && DeploymentName(p.name, n) == k
                  && Covered(a.jobs, JobName(p.name, n));
      CoveredStays(a.jobs, b.jobs, JobName(p.name, n));
    }
  }

  lemma TornTransitive(pools: seq<StoragePool>, nodes: set<string>, a: Scene, b: Scene, c: Scene)
    requires Torn(pools, nodes, a, b) && Torn(pools, nodes, b, c)
    ensures Torn(pools, nodes, a, c)
  {
    hide Excused, Targeted;
    JobsAdvanceTransitive(a.jobs, b.jobs, c.jobs);
    if WellLogged(a.jobs) {
      forall k | k in a.deployments && k !in c.deployments ensures Excused(pools, nodes, k, a.deployments[k], c) {
        if k !in b.deployments { ExcusedStays(pools, nodes, k, a.deployments[k], b, c); }
      }
    }
    forall uid | uid in c.jobs.log && uid !in a.jobs.log ensures Ours(pools, nodes, c.jobs.log[uid]) {
      assert uid in b.jobs.log ==> c.jobs.log[uid] == b.jobs.log[uid];
    }
  }

  lemma TornByTime(pools: seq<StoragePool>, nodes: set<string>, a: Scene, b: Scene)
    requires JobsAdvance(a.jobs, b.jobs) && b.steady <= a.steady && b.deployments == a.deployments
             && b.jobs.log == a.jobs.log
    ensures Torn(pools, nodes, a, b)
  {
  }

  lemma TornByJob(pools: seq<StoragePool>, nodes: set<string>, p: StoragePool, node: string, a: Scene, b: Scene)
    requires JobsAdvance(a.jobs, b.jobs) && b.steady <= a.steady && b.deployments == a.deployments
    requires p in pools && p.template.Some? && node in nodes
    requires
      || b.jobs.log == a.jobs.log
      || (!Dashed(JobName(p.name, node))
          && b.jobs.log == a.jobs.log[a.jobs.nextUid := JobRecord(JobName(p.name, node), p.name, node)])
    ensures Torn(pools, nodes, a, b)
  {
  }

  lemma TornByDeleting(pools: seq<StoragePool>, nodes: set<string>, k: string, a: Scene, b: Scene)
    requires JobsAdvance(a.jobs, b.jobs) && b.steady <= a.steady && b.jobs.log == a.jobs.log
    requires b.deployments == a.deployments || b.deployments == a.deployments - {k}
    requires k in a.deployments ==>
               Excused(pools, nodes, k, a.deployments[k], b) && Targeted(pools, nodes, k, a.deployments[k])
    ensures Torn(pools, nodes, a, b)
  {
  }

  lemma TornKeepsRecord(pools: seq<StoragePool>, nodes: set<string>, a: Scene, b: Scene)
    requires Torn(pools, nodes, a, b) && WellLogged(a.jobs)
    ensures WellLogged(b.jobs) && Kept(b.deployments, a.deployments)
  {
  }

  lemma PairCovers(pools: seq<StoragePool>, nodes: set<string>, p: StoragePool, node: string, v: JobView)
    requires p in pools && p.template.Some? && node in nodes && Covered(v, JobName(p.name, node))
    ensures CoveredPair(pools, nodes, DeploymentName(p.name, node), v)
  {
  }

  // ----------------------------------------------------------------------------- the run

  /** Nothing managed is left that the pool names on the deployment's own node. */
  ghost predicate Swept(p: StoragePool, m: map<string, Deployment>) {
    forall k | k in m && Managed(m[k]) :: DeploymentName(p.name, m[k].spec.node) != k
  }

  /** Whatever is left sits on a node that exists. */
  ghost predicate Pinned(m: map<string, Deployment>, nodes: set<string>) {
    forall k | k in m && Managed(m[k]) :: m[k].spec.node in nodes
  }

  lemma SweptStays(p: StoragePool, a: map<string, Deployment>, b: map<string, Deployment>)
    requires Kept(b, a) && Swept(p, a)
    ensures Swept(p, b)
  {
  }

  /** One managed deployment against one pool: the body of the inner loop. */
  method CleanDeployment(r: Client, pools: seq<StoragePool>, p: StoragePool, k: string, d: Deployment,
                         ghost nodes: set<string>) returns (err: Option<Error>)
    requires WellLogged(JobsOf(r)) && r.sky.steady <= r.sky.nodes
    requires p in pools && p.template.Some? && d.spec.node in nodes && (k in r.deployments ==> r.deployments[k] == d)
    requires Managed(d)
    modifies r`sky, r`jobs, r`writes, r`nextUid, r`log, r`refused, r`deployments
    ensures Later(old(r.sky), r.sky)
    ensures Torn(pools, nodes, old(SceneOf(r)), SceneOf(r))
    ensures err.None? ==> k !in r.deployments || DeploymentName(p.name, d.spec.node) != k
    ensures r.deployments in {old(r.deployments), old(r.deployments) - {k},
                              old(r.deployments) - {DeploymentName(p.name, d.spec.node)}}
    ensures forall uid | uid in r.log && uid !in old(r.log) ::
              r.log[uid] == JobRecord(JobName(p.name, d.spec.node), p.name, d.spec.node)
    ensures old(r.sky.events) == [] ==>
              && err.None? && (k in r.deployments ==> d.spec.node in r.sky.nodes)
              && r.deployments == old(r.deployments) - {Target(p, k, d, r.sky.nodes)}
    ensures Obliging(old(r.sky.events)) ==> DashedRefused(old(r.refused), r.refused)
    ensures JobName(p.name, d.spec.node) in old(r.jobs) || Dashed(JobName(p.name, d.spec.node)) ==>
              JobsOf(r) == old(JobsOf(r)).(finished := r.sky.finished, refused := r.refused)
  {
    hide DashedRefused, Obliging, Torn, WellLogged, Covered, CoveredPair, JobName, DeploymentName, JobsAdvance, Uids,
      Managed, Later, Quiet, Excused, Targeted;
    ghost var a, sky := SceneOf(r), r.sky;
    var node;
    err, node := CreateCleanupJobForDeployment(r, d, p.name);
    ghost var b, mid := SceneOf(r), r.sky;
    LaterMeans(sky, mid);
    CalmStays(sky, mid);
    TornByJob(pools, nodes, p, d.spec.node, a, b);
    TornKeepsRecord(pools, nodes, a, b);
    if err.Some? { return; }
    var target := k;
    if node.Some? {
      target := DeploymentName(p.name, d.spec.node);
      err := DeleteFound(r, target);
    } else {
      err := DeleteDeployment(r, target);
    }
    ghost var c := SceneOf(r);
    QuietMeans(mid, r.sky, r.jobs);
    LaterMeans(mid, r.sky);
    LaterTransitive(sky, mid, r.sky);
    WaitingAdvances(b.jobs, c.jobs);
    if node.Some? {
      PairCovers(pools, nodes, p, d.spec.node, b.jobs);
      CoveredPairStays(pools, nodes, target, b.jobs, c.jobs);
    }
    MayGo(pools, nodes, p, target, d, node.Some?, c);
    TornByDeleting(pools, nodes, target, b, c);
    TornTransitive(pools, nodes, a, b, c);
  }

  /** Why the deployment under that name may go. */
  lemma MayGo(pools: seq<StoragePool>, nodes: set<string>, p: StoragePool, k: string, d: Deployment, alive: bool,
              s: Scene)
    requires p in pools && p.template.Some? && d.spec.node in nodes
    requires alive ==> k == DeploymentName(p.name, d.spec.node) && CoveredPair(pools, nodes, k, s.jobs)
    requires !alive ==> Managed(d) && d.spec.node !in s.steady
    ensures alive ==> forall e :: Excused(pools, nodes, k, e, s) && Targeted(pools, nodes, k, e)
    ensures !alive ==> Excused(pools, nodes, k, d, s) && Targeted(pools, nodes, k, d)
  {
  }

  /** Deletes the deployment if it is there. */
  method DeleteFound(r: Client, k: string) returns (err: Option<Error>)
    modifies r`sky, r`deployments, r`writes
    ensures Quiet(old(r.sky), r.sky, r.jobs)
    ensures r.deployments == old(r.deployments) || r.deployments == old(r.deployments) - {k}
    ensures err.None? ==> r.deployments == old(r.deployments) - {k}
    ensures old(r.sky.events) == [] ==> err.None?
  {
    var f := r.Tick();
    var got := Got(r.deployments, k, f);
    if got == Failed { return Some(Request); }
    if got == NotFound { return None; }
    err := DeleteDeployment(r, k);
  }

  /** A missing deployment counts as deleted. */
  method DeleteDeployment(r: Client, k: string) returns (err: Option<Error>)
    modifies r`sky, r`deployments, r`writes
    ensures Quiet(old(r.sky), r.sky, r.jobs)
    ensures r.deployments == old(r.deployments) || r.deployments == old(r.deployments) - {k}
    ensures err.None? ==> r.deployments == old(r.deployments) - {k}
    ensures old(r.sky.events) == [] ==> err.None?
  {
    var f := r.Tick();
    r.writes := r.writes + 1;
    var reply, deployments := Deleted(r.deployments, k, f).0, Deleted(r.deployments, k, f).1;
    r.deployments := deployments;
    err := if reply == Failed then Some(Request) else None;
  }

  lemma CoveredPairStays(pools: seq<StoragePool>, nodes: set<string>, k: string, a: JobView, b: JobView)
    requires CoveredPair(pools, nodes, k, a) && JobsAdvance(a, b) && WellLogged(a)
    ensures CoveredPair(pools, nodes, k, b)
  {
    var p, n :| p in pools && p.template.Some? && n in nodes && DeploymentName(p.name, n) == k
                && Covered(a, JobName(p.name, n));
    CoveredStays(a, b, JobName(p.name, n));
  }

  /** Every pool has its job on every node already, or cannot get one. */
  ghost predicate Supplied(pools: seq<StoragePool>, nodes: set<string>, jobs: map<string, Job>) {
    forall p, n | p in pools && p.template.Some? && n in nodes ::
      JobName(p.name, n) in jobs || Dashed(JobName(p.name, n))
  }

  /** What one deployment makes the run delete for a pool: the pool's own deployment on that node, or
      the one at hand if the node is gone. */
  function Target(p: StoragePool, k: string, d: Deployment, live: set<string>): string {
    if d.spec.node in live then DeploymentName(p.name, d.spec.node) else k
  }

  function CleanedBy(p: StoragePool, m: map<string, Deployment>, live: set<string>): set<string> {
    set k | k in m && Managed(m[k]) :: Target(p, k, m[k], live)
  }

  /** What a calm cleaning leaves. */
  function AfterCleaning(pools: seq<StoragePool>, m: map<string, Deployment>, live: set<string>): map<string,
    Deployment> {
    if pools == [] then m
    else
      var before := AfterCleaning(pools[..|pools| - 1], m, live);
      if pools[|pools| - 1].template.None? then before else before - CleanedBy(pools[|pools| - 1], before, live)
  }

  /** One pool against all managed deployments. */
  method CleanPool(r: Client, pools: seq<StoragePool>, p: StoragePool, ghost nodes: set<string>)
    returns (err: Option<Error>)
    requires WellLogged(JobsOf(r)) && r.sky.steady <= r.sky.nodes
    requires p in pools && p.template.Some? && forall k | k in r.deployments && Managed(r.deployments[k]) ::
               r.deployments[k].spec.node in nodes
    modifies r`sky, r`jobs, r`writes, r`nextUid, r`log, r`refused, r`deployments
    ensures Later(old(r.sky), r.sky)
    ensures Torn(pools, nodes, old(SceneOf(r)), SceneOf(r))
    ensures err.None? ==> Swept(p, r.deployments)
    ensures old(r.sky.events) == [] ==>
              && err.None? && Pinned(r.deployments, r.sky.nodes)
              && r.deployments == old(r.deployments) - CleanedBy(p, old(r.deployments), r.sky.nodes)
    ensures Obliging(old(r.sky.events)) ==> DashedRefused(old(r.refused), r.refused)
    ensures Supplied(pools, nodes, old(r.jobs)) ==>
              JobsOf(r) == old(JobsOf(r)).(finished := r.sky.finished, refused := r.refused)
  {
    hide DashedRefused, Obliging, Torn, WellLogged, JobName, DeploymentName, JobsAdvance, Uids, Managed, Cleaning,
      Later, Quiet, Swept, Pinned, CleanedBy, Supplied;
    ghost var a, sky := SceneOf(r), r.sky;
    NoneRefused(r.refused);
    var current;
    err, current := CurrentStoragePoolDeployments(r);
    QuietMeans(sky, r.sky, r.jobs);
    LaterMeans(sky, r.sky);
    StillObliging(sky, r.sky);
    WaitingAdvances(a.jobs, JobsOf(r));
    TornByTime(pools, nodes, a, SceneOf(r));
    TornKeepsRecord(pools, nodes, a, SceneOf(r));
    if err.Some? { return; }
    var todo := current.Keys;
    NothingCleaned(p, current, a.deployments, sky.nodes, sky.events == []);
    while todo != {}
      invariant todo <= current.Keys
      invariant Later(sky, r.sky) && r.sky.steady <= r.sky.nodes
                && (sky.events == [] ==> r.sky.events == [] && r.sky.nodes == sky.nodes)
      invariant Torn(pools, nodes, a, SceneOf(r)) && WellLogged(JobsOf(r)) && Kept(r.deployments, a.deployments)
      invariant Cleaning(p, current, todo, a.deployments, r.deployments, sky.nodes, sky.events == [])
      invariant Obliging(sky.events) ==> Obliging(r.sky.events) && DashedRefused(old(r.refused), r.refused)
      invariant Supplied(pools, nodes, old(r.jobs)) ==>
                  JobsOf(r) == old(JobsOf(r)).(finished := r.sky.finished, refused := r.refused)
    {
      var k :| k in todo;
      ghost var b, mid := SceneOf(r), r.sky;
      SuppliedAt(pools, nodes, p, current[k].spec.node, b.jobs.jobs);
      err := CleanDeployment(r, pools, p, k, current[k], nodes);
      if Obliging(sky.events) { StillDashed(old(r.refused), b.jobs.refused, r.refused); }
      LaterMeans(mid, r.sky);
      CalmIsStill(mid, r.sky);
      LaterTransitive(sky, mid, r.sky);
      StillObliging(mid, r.sky);
      TornTransitive(pools, nodes, a, b, SceneOf(r));
      TornKeepsRecord(pools, nodes, a, SceneOf(r));
      TornKeepsRecord(pools, nodes, b, SceneOf(r));
      if err.Some? { return; }
      CleaningGoesOn(p, current, todo, a.deployments, b.deployments, r.deployments, sky.nodes, sky.events == [], k);
      todo := todo - {k};
    }
    CleaningEnds(p, current, a.deployments, r.deployments, sky.nodes, sky.events == []);
    err := None;
  }

  lemma SuppliedAt(pools: seq<StoragePool>, nodes: set<string>, p: StoragePool, node: string, jobs: map<string, Job>)
    requires p in pools && p.template.Some? && node in nodes
    ensures Supplied(pools, nodes, jobs) ==> JobName(p.name, node) in jobs || Dashed(JobName(p.name, node))
  {
  }

  /** What the deployments done so far make one pool's loop delete. */
  ghost function Cleaned(p: StoragePool, current: map<string, Deployment>, todo: set<string>,
                         live: set<string>): set<string> {
    set k | k in current && k !in todo :: Target(p, k, current[k], live)
  }

  /** One pool's loop with some deployments still to do. */
  ghost predicate Cleaning(p: StoragePool, current: map<string, Deployment>, todo: set<string>,
                           a: map<string, Deployment>, m: map<string, Deployment>, live: set<string>, calm: bool) {
    && current == ManagedOf(a) && todo <= current.Keys && Kept(m, a)
    && (forall k | k in current && k !in todo && k in m ::
          DeploymentName(p.name, current[k].spec.node) != k && (calm ==> current[k].spec.node in live))
    && (calm ==> m == a - Cleaned(p, current, todo, live))
  }

  lemma CleanedMore(p: StoragePool, current: map<string, Deployment>, todo: set<string>, live: set<string>, k: string)
    requires todo <= current.Keys
    ensures Cleaned(p, current, current.Keys, live) == {}
    ensures k in todo ==> Cleaned(p, current, todo - {k}, live) == Cleaned(p, current, todo,
                                                                           live) + {Target(p, k, current[k], live)}
  {
    hide Target;
  }

  lemma NothingCleaned(p: StoragePool, current: map<string, Deployment>, a: map<string, Deployment>, live: set<string>,
                       calm: bool)
    requires current == ManagedOf(a)
    ensures Cleaning(p, current, current.Keys, a, a, live, calm)
  {
    hide Managed, DeploymentName, Cleaned;
    CleanedMore(p, current, current.Keys, live, "");
    assert a - {} == a;
  }

  lemma CleaningGoesOn(p: StoragePool, current: map<string, Deployment>, todo: set<string>, a: map<string, Deployment>,
                       m: map<string, Deployment>, n: map<string, Deployment>, live: set<string>, calm: bool, k: string)
    requires Cleaning(p, current, todo, a, m, live, calm) && k in todo && Kept(n, m)
    requires k in n ==> DeploymentName(p.name, current[k].spec.node) != k && (calm ==> current[k].spec.node in live)
    requires calm ==> n == m - {Target(p, k, current[k], live)}
    ensures Cleaning(p, current, todo - {k}, a, n, live, calm)
  {
    hide Managed, DeploymentName, Cleaned, Target;
    CleanedMore(p, current, todo, live, k);
    if calm { MinusTwice(a, Cleaned(p, current, todo, live), {Target(p, k, current[k], live)}); }
  }

  lemma MinusTwice<T>(m: map<string, T>, a: set<string>, b: set<string>)
    ensures m - a - b == m - (a + b)
  {
  }

  lemma CleaningEnds(p: StoragePool, current: map<string, Deployment>, a: map<string, Deployment>,
                     m: map<string, Deployment>, live: set<string>, calm: bool)
    requires Cleaning(p, current, {}, a, m, live, calm)
    ensures Swept(p, m) && (calm ==> Pinned(m, live) && m == a - CleanedBy(p, a, live))
  {
    hide Managed, DeploymentName, Target;
    assert forall k | k in m && Managed(m[k]) :: k in current && current[k] == m[k];
    assert Cleaned(p, current, {}, live) == CleanedBy(p, a, live) by {
      assert forall k :: k in current <==> k in a && Managed(a[k]);
      assert forall k | k in current :: current[k] == a[k];
    }
  }

  /** Every managed deployment against every pool with a claim template. When all requests
      succeed, what is left is named by no such pool on its own node. */
  method CleanDeployments(r: Client, pools: seq<StoragePool>, ghost nodes: set<string>) returns (err: Option<Error>)
    requires WellLogged(JobsOf(r)) && r.sky.steady <= r.sky.nodes
    requires forall k | k in r.deployments && Managed(r.deployments[k]) :: r.deployments[k].spec.node in nodes
    modifies r`sky, r`jobs, r`writes, r`nextUid, r`log, r`refused, r`deployments
    ensures Later(old(r.sky), r.sky)
    ensures Torn(pools, nodes, old(SceneOf(r)), SceneOf(r))
    ensures err.None? ==> forall p | p in pools && p.template.Some? :: Swept(p, r.deployments)
    ensures old(r.sky.events) == [] ==>
              && err.None? && ((exists p :: p in pools && p.template.Some?) ==> Pinned(r.deployments, r.sky.nodes))
              && r.deployments == AfterCleaning(pools, old(r.deployments), r.sky.nodes)
    ensures Obliging(old(r.sky.events)) ==> DashedRefused(old(r.refused), r.refused)
    ensures Supplied(pools, nodes, old(r.jobs)) ==>
              JobsOf(r) == old(JobsOf(r)).(finished := r.sky.finished, refused := r.refused)
  {
    hide DashedRefused, Obliging, Supplied, Torn, WellLogged, Managed, Swept, JobsAdvance;
    ghost var a := SceneOf(r);
    err := None;
    NoneRefused(r.refused);
    StandingAdvances(a.jobs);
    TornByTime(pools, nodes, a, a);
    assert Kept(a.deployments, a.deployments);
    for i := 0 to |pools|
      invariant Later(old(r.sky), r.sky) && Torn(pools, nodes, a, SceneOf(r)) && WellLogged(JobsOf(r))
                && Kept(r.deployments, a.deployments)
      invariant forall j | 0 <= j < i && pools[j].template.Some? :: Swept(pools[j], r.deployments)
      invariant old(r.sky.events) == [] && (exists j :: 0 <= j < i && pools[j].template.Some?) ==>
          Pinned(r.deployments, r.sky.nodes)
      invariant old(r.sky.events) == [] ==>
          && r.sky.nodes == old(r.sky.nodes)
          && r.deployments == AfterCleaning(pools[..i], old(r.deployments), r.sky.nodes)
      invariant Obliging(old(r.sky.events)) ==> DashedRefused(old(r.refused), r.refused)
      invariant Supplied(pools, nodes, old(r.jobs)) ==>
          JobsOf(r) == old(JobsOf(r)).(finished := r.sky.finished, refused := r.refused)
    {
      assert pools[..i + 1][..i] == pools[..i] && pools[..i + 1][i] == pools[i];
      if pools[i].template.Some? {
        ghost var b := SceneOf(r);
        err := CleanPool(r, pools, pools[i], nodes);
        if Obliging(old(r.sky.events)) { StillDashed(old(r.refused), b.jobs.refused, r.refused); }
        TornTransitive(pools, nodes, a, b, SceneOf(r));
        TornKeepsRecord(pools, nodes, a, SceneOf(r));
        TornKeepsRecord(pools, nodes, b, SceneOf(r));
        if err.Some? { return; }
        forall j | 0 <= j < i && pools[j].template.Some? ensures Swept(pools[j], r.deployments) {
          SweptStays(pools[j], b.deployments, r.deployments);
        }
      }
    }
    assert pools[..|pools|] == pools;
    err := None;
  }


  /** A deployment that the custom resource does not control, or without the app label, is kept, unless it
      has the name of a pool of the spec on a node the teardown looks at. */
  lemma ForeignIsSpared(pools: seq<StoragePool>, nodes: set<string>, a: Scene, b: Scene, k: string)
    requires Torn(pools, nodes, a, b) && k in a.deployments && Foreign(a.deployments[k])
    requires forall p, n | p in pools && p.template.Some? && n in nodes :: DeploymentName(p.name, n) != k
    ensures k in b.deployments && b.deployments[k] == a.deployments[k]
  {
  }

  /** Such a deployment under the name of a pair is deleted all the same: in a calm cluster exactly when some
      deployment that is the operator's own is there on that node, which lives, when the pool's turn comes. */
  lemma {:induction false} ForeignGoes(pools: seq<StoragePool>, m: map<string, Deployment>, live: set<string>,
                                       k: string)
    requires k in m && Foreign(m[k])
    ensures k !in AfterCleaning(pools, m, live) <==>
            exists i, j :: 0 <= i < |pools| && Summons(pools, m, live, k, i, j)
  {
    hide Summons;
    if pools != [] {
      var n := |pools| - 1;
      var init := pools[..n];
      ForeignGoes(init, m, live, k);
      forall i, j | 0 <= i < n ensures Summons(pools, m, live, k, i, j) <==> Summons(init, m, live, k, i, j) {
        SummonsEarlier(pools, m, live, k, i, j);
      }
      LastSummons(pools, m, live, k, n);
    }
  }

  lemma SummonsEarlier(pools: seq<StoragePool>, m: map<string, Deployment>, live: set<string>, k: string, i: nat,
                       j: string)
    requires i < |pools| - 1
    ensures Summons(pools, m, live, k, i, j) <==> Summons(pools[..|pools| - 1], m, live, k, i, j)
  {
    hide AfterCleaning;
    assert pools[..|pools| - 1][..i] == pools[..i];
  }

  /** The last pool's turn. */
  lemma LastSummons(pools: seq<StoragePool>, m: map<string, Deployment>, live: set<string>, k: string, n: nat)
    requires n + 1 == |pools| && k in m && Foreign(m[k])
    ensures k !in AfterCleaning(pools, m, live) <==>
            || k !in AfterCleaning(pools[..n], m, live)
            || exists j :: Summons(pools, m, live, k, n, j)
  {
    hide DeploymentName;
    var before := AfterCleaning(pools[..n], m, live);
    CleaningKeeps(pools[..n], m, live);
    if k in before && k !in AfterCleaning(pools, m, live) {
      var j :| j in before && Managed(before[j]) && Target(pools[n], j, before[j], live) == k;
      assert Summons(pools, m, live, k, n, j);
    }
    if j :| Summons(pools, m, live, k, n, j) {
      assert Target(pools[n], j, before[j], live) == k && k in CleanedBy(pools[n], before, live);
    }
  }

  /** When pool i has its turn, deployment j is there, is the operator's own, and sits on a live node on which
      the pool's deployment has the name k. */
  ghost predicate Summons(pools: seq<StoragePool>, m: map<string, Deployment>, live: set<string>, k: string, i: nat,
                          j: string)
    requires i < |pools|
  {
    var before := AfterCleaning(pools[..i], m, live);
    && pools[i].template.Some? && j in before && !Foreign(before[j]) && before[j].spec.node in live
    && DeploymentName(pools[i].name, before[j].spec.node) == k
  }

  lemma {:induction false} CleaningKeeps(pools: seq<StoragePool>, m: map<string, Deployment>, live: set<string>)
    ensures Kept(AfterCleaning(pools, m, live), m)
  {
    if pools != [] { CleaningKeeps(pools[..|pools| - 1], m, live); }
  }

  // ------------------------------------------------------------------------ all the runs

  lemma {:induction false} TornThroughout(pools: seq<StoragePool>, nodes: set<string>, trace: seq<Scene>)
    requires |trace| > 0 && forall i | 0 <= i < |trace| - 1 :: Torn(pools, nodes, trace[i], trace[i + 1])
    ensures Torn(pools, nodes, trace[0], trace[|trace| - 1])
  {
    if |trace| == 1 {
      StandingAdvances(trace[0].jobs);
    } else {
      TornThroughout(pools, nodes, trace[1..]);
      assert trace[1..][|trace| - 2] == trace[|trace| - 1];
      TornTransitive(pools, nodes, trace[0], trace[1], trace[|trace| - 1]);
    }
  }

  /** Nothing is left to clean up: what the last run finds before it removes the finalizer. */
  ghost predicate Released(s: Scene) {
    ManagedOf(s.deployments) == map[] && s.jobs.jobs == map[]
  }

  /** The pool of this deployment name was unmounted by a job that completed, or the API server
      would not have the job. */
  ghost predicate UnmountedOrRefused(pools: seq<StoragePool>, nodes: set<string>, k: string, v: JobView) {
    exists p, n :: p in pools && p.template.Some? && n in nodes && DeploymentName(p.name, n) == k
                   && (Done(v, JobName(p.name, n)) || JobName(p.name, n) in v.refused)
  }

  /** Over all runs of a teardown, whatever fails, completes or disappears on the way: once the
      finalizer can go, every deployment there was at the start either lost its node or had its
      pool unmounted. */
  lemma SafeTeardown(pools: seq<StoragePool>, nodes: set<string>, trace: seq<Scene>)
    requires |trace| > 0 && WellLogged(trace[0].jobs)
    requires forall i | 0 <= i < |trace| - 1 :: Torn(pools, nodes, trace[i], trace[i + 1])
    requires Released(trace[|trace| - 1])
    ensures forall k | k in trace[0].deployments && Managed(trace[0].deployments[k]) ::
              || trace[0].deployments[k].spec.node !in trace[|trace| - 1].steady
              || UnmountedOrRefused(pools, nodes, k, trace[|trace| - 1].jobs)
  {
    var a, b := trace[0], trace[|trace| - 1];
    TornThroughout(pools, nodes, trace);
    forall k | k in a.deployments && Managed(a.deployments[k]) && a.deployments[k].spec.node in b.steady
      ensures UnmountedOrRefused(pools, nodes, k, b.jobs)
    {
      assert k !in ManagedOf(b.deployments);
      var p, n :| p in pools && p.template.Some? && n in nodes && DeploymentName(p.name, n) == k
                  && Covered(b.jobs, JobName(p.name, n));
    }
  }

  /** A clean start: no job is left over from before. */
  ghost predicate NoJobs(v: JobView) {
    v.jobs == map[] && v.log == map[] && v.finished == {} && v.refused == {}
  }

  ghost function PoolNames(pools: seq<StoragePool>): set<string> {
    set p | p in pools && p.template.Some? :: p.name
  }

  /** The deployment was made for this pool and its own node. */
  ghost predicate MadeFor(pools: seq<StoragePool>, p: StoragePool, k: string, d: Deployment) {
    p in pools && p.template.Some? && k == DeploymentName(p.name, d.spec.node)
  }

  /** A job made since unmounted this pool from this node. */
  ghost predicate UnmountedSince(a: JobView, b: JobView, pool: string, node: string) {
    exists uid :: uid in b.finished && uid in b.log && uid !in a.log && b.log[uid].pool == pool
                  && b.log[uid].node == node
  }

  /** On these pools and nodes, no two pairs share a deployment name, and none share a job name. */
  ghost predicate NamesApart(names: set<string>, nodes: set<string>) {
    forall p, n, q, m | p in names && n in nodes && q in names && m in nodes && (p, n) != (q, m) ::
      DeploymentName(p, n) != DeploymentName(q, m) && JobName(p, n) != JobName(q, m)
  }

  /** Pool names that are no dash extensions of each other keep names apart on all nodes, as long as
      pool and node take no more than 53 characters together with the dash. */
  lemma NoConfusionApart(names: set<string>, nodes: set<string>)
    requires NoConfusion(names) && forall p, n | p in names && n in nodes :: |PairName(p, n)| <= 53
    ensures NamesApart(names, nodes)
  {
    forall p, n, q, m | p in names && n in nodes && q in names && m in nodes && (p, n) != (q, m)
      ensures DeploymentName(p, n) != DeploymentName(q, m) && JobName(p, n) != JobName(q, m)
    {
      if DeploymentName(p, n) == DeploymentName(q, m) { DeploymentNamesDistinct(names, p, n, q, m); }
      if JobName(p, n) == JobName(q, m) { JobsDistinct(names, p, n, q, m); }
    }
  }

  /** With names apart, hashed or not: the finalizer goes only after each pool was unmounted, wherever
      the node never left, by a job of the teardown for that very pool and node, unless a job of that
      name is left over from before or was refused. */
  lemma EveryPairUnmounted(pools: seq<StoragePool>, nodes: set<string>, trace: seq<Scene>)
    requires |trace| > 0 && WellLogged(trace[0].jobs) && Released(trace[|trace| - 1])
    requires forall i | 0 <= i < |trace| - 1 :: Torn(pools, nodes, trace[i], trace[i + 1])
    requires NamesApart(PoolNames(pools), nodes)
    requires forall k | k in trace[0].deployments && Managed(trace[0].deployments[k]) ::
               trace[0].deployments[k].spec.node in nodes
    ensures forall k, p | k in trace[0].deployments && Managed(trace[0].deployments[k])
                          && MadeFor(pools, p, k, trace[0].deployments[k]) ::
              var node := trace[0].deployments[k].spec.node;
              || node !in trace[|trace| - 1].steady
              || UnmountedSince(trace[0].jobs, trace[|trace| - 1].jobs, p.name, node)
              || !Unrecorded(trace[0].jobs, JobName(p.name, node))
              || JobName(p.name, node) in trace[|trace| - 1].jobs.refused
  {
    hide JobName, DeploymentName, Managed;
    var a, b := trace[0], trace[|trace| - 1];
    TornThroughout(pools, nodes, trace);
    SafeTeardown(pools, nodes, trace);
    forall k, p | k in a.deployments && Managed(a.deployments[k]) && MadeFor(pools, p, k, a.deployments[k])
                  && a.deployments[k].spec.node in b.steady
                  && Unrecorded(a.jobs, JobName(p.name, a.deployments[k].spec.node))
                  && JobName(p.name, a.deployments[k].spec.node) !in b.jobs.refused
      ensures UnmountedSince(a.jobs, b.jobs, p.name, a.deployments[k].spec.node)
    {
      var node := a.deployments[k].spec.node;
      var q, m :| && q in pools && q.template.Some? && m in nodes && DeploymentName(q.name, m) == k
                  && (Done(b.jobs, JobName(q.name, m)) || JobName(q.name, m) in b.jobs.refused);
      assert p.name in PoolNames(pools) && q.name in PoolNames(pools);
      assert (p.name, node) == (q.name, m);
      var uid :| uid in b.jobs.finished && uid in b.jobs.log && b.jobs.log[uid].name == JobName(p.name, node);
      var made := b.jobs.log[uid];
      StillRecorded(a.jobs, b.jobs, uid);
      assert Ours(pools, nodes, made);
      assert made.pool in PoolNames(pools) && (p.name, node) == (made.pool, made.node);
    }
  }

  lemma StillRecorded(a: JobView, b: JobView, uid: nat)
    requires JobsAdvance(a, b) && uid in b.log
    ensures uid in a.log ==> b.log[uid] == a.log[uid]
  {
  }

  /** A clean start, runs of which no request is refused, and no pair of 53 characters, all of which can
      be checked beforehand: then every pool is unmounted, wherever the node never left. */
  lemma {:induction false} CleanStartUnmounts(pools: seq<StoragePool>, nodes: set<string>, trace: seq<Scene>)
    requires |trace| > 0 && NoJobs(trace[0].jobs) && Released(trace[|trace| - 1])
    requires forall i | 0 <= i < |trace| - 1 ::
               Torn(pools, nodes, trace[i], trace[i + 1])
               && DashedRefused(trace[i].jobs.refused, trace[i + 1].jobs.refused)
    requires NamesApart(PoolNames(pools), nodes)
    requires forall p, n | p in pools && p.template.Some? && n in nodes :: |p.name| + 1 + |n| != 53
    requires forall k | k in trace[0].deployments && Managed(trace[0].deployments[k]) ::
               trace[0].deployments[k].spec.node in nodes
    ensures forall k, p | k in trace[0].deployments && Managed(trace[0].deployments[k])
                          && MadeFor(pools, p, k, trace[0].deployments[k]) ::
              var node := trace[0].deployments[k].spec.node;
              node !in trace[|trace| - 1].steady || UnmountedSince(trace[0].jobs, trace[|trace| - 1].jobs, p.name, node)
  {
    hide Torn, JobName, DeploymentName, Managed, UnmountedSince;
    var a, b := trace[0], trace[|trace| - 1];
    EveryPairUnmounted(pools, nodes, trace);
    DashedThroughout(trace, |trace| - 1);
    forall p, n | p in pools && p.template.Some? && n in nodes ensures JobName(p.name, n) !in b.jobs.refused {
      JobNameStartsWithDash(p.name, n);
    }
  }

  lemma {:induction false} DashedThroughout(trace: seq<Scene>, i: nat)
    requires i < |trace| && forall j | 0 <= j < |trace| - 1 ::
               DashedRefused(trace[j].jobs.refused, trace[j + 1].jobs.refused)
    ensures DashedRefused(trace[0].jobs.refused, trace[i].jobs.refused)
  {
    if i == 0 {
      NoneRefused(trace[0].jobs.refused);
    } else {
      DashedThroughout(trace, i - 1);
      StillDashed(trace[0].jobs.refused, trace[i - 1].jobs.refused, trace[i - 1 + 1].jobs.refused);
    }
  }

  /** What keeps the finalizer forever: a managed deployment on a node that stays, with a name
      that no pool of the spec gives rise to, is never removed. */
  lemma LeftBehind(pools: seq<StoragePool>, nodes: set<string>, trace: seq<Scene>, k: string)
    requires |trace| > 0 && WellLogged(trace[0].jobs)
    requires forall i | 0 <= i < |trace| - 1 :: Torn(pools, nodes, trace[i], trace[i + 1])
    requires k in trace[0].deployments && Managed(trace[0].deployments[k])
             && trace[0].deployments[k].spec.node in trace[|trace| - 1].steady
    requires forall p, n | p in pools && p.template.Some? && n in nodes :: DeploymentName(p.name, n) != k
    ensures !Released(trace[|trace| - 1])
  {
    TornThroughout(pools, nodes, trace);
    assert k in ManagedOf(trace[|trace| - 1].deployments);
  }

  /** What a run in which all requests succeed leaves, when no pool gives rise to a deployment's name on
      another node than its own: exactly the deployments on live nodes that were made for no pool
      of the spec. So it leaves none exactly when each was made for a pool or lost its node. */
  lemma WhatIsLeft(pools: seq<StoragePool>, nodes: set<string>, a: Scene, b: Scene)
    requires Torn(pools, nodes, a, b) && WellLogged(a.jobs)
    requires (forall p | p in pools && p.template.Some? :: Swept(p, b.deployments)) && Pinned(b.deployments, b.steady)
    requires forall k, p, n | k in a.deployments && Managed(a.deployments[k]) && p in pools && p.template.Some?
                              && n in nodes && DeploymentName(p.name, n) == k ::
               n == a.deployments[k].spec.node
    ensures forall k | k in a.deployments && Managed(a.deployments[k]) ::
              k in b.deployments <==> a.deployments[k].spec.node in b.steady && forall p | p in pools ::
                                        !MadeFor(pools, p, k, a.deployments[k])
    ensures ManagedOf(b.deployments) == map[] <==>
            forall k | k in a.deployments && Managed(a.deployments[k]) ::
              a.deployments[k].spec.node !in b.steady || exists p :: MadeFor(pools, p, k, a.deployments[k])
  {
    hide DeploymentName, Managed, JobName, JobsAdvance, Covered;
    forall k | k in a.deployments && Managed(a.deployments[k])
      ensures k in b.deployments <==> a.deployments[k].spec.node in b.steady && forall p | p in pools ::
                                        !MadeFor(pools, p, k, a.deployments[k])
    {
      var d := a.deployments[k];
      if k !in b.deployments {
        assert Excused(pools, nodes, k, d, b);
        if d.spec.node in b.steady {
          var p, n :| p in pools && p.template.Some? && n in nodes && DeploymentName(p.name, n) == k
                      && Covered(b.jobs, JobName(p.name, n));
          assert MadeFor(pools, p, k, d);
        }
      } else {
        assert b.deployments[k] == d;
        forall p | p in pools ensures !MadeFor(pools, p, k, d) {
          if p.template.Some? { assert Swept(p, b.deployments); }
        }
      }
    }
    assert forall k | k in ManagedOf(b.deployments) :: k in a.deployments && Managed(a.deployments[k]);
    assert forall k | k in a.deployments && Managed(a.deployments[k]) && k in b.deployments ::
        k in ManagedOf(b.deployments);
  }
}
