// The API server the operator talks to, and the world around it. Every request consumes one event
// of a schedule: what the environment does just before the request, and whether the request
// fails. Nothing is assumed about the schedule; an empty one is a calm cluster.

module Cluster {
  import opened CustomResource
  import opened Json
  import Conditions
  import Names

  const APP := "hostpath-provisioner"
  const CSI_DAEMON_SET := "hostpath-provisioner-csi"
  const LEGACY_ACCOUNT := "hostpath-provisioner-admin"
  const CSI_ACCOUNT := "hostpath-provisioner-admin-csi"

  // ----------------------------------------------------------------------- environment

  /** Fine; refused without effect; or carried out although the caller sees an error. */
  datatype Fault = Fine | Refused | Unacknowledged

  /** Nodes that leave and appear, jobs that complete, and daemon set pods that come and go. */
  datatype Event = Event(fault: Fault, vanish: set<string>, appear: set<string>, finish: set<nat>,
                         readiness: map<string, Readiness>)

  datatype Readiness = Readiness(ready: nat, desired: nat, available: nat)

  /** The part of the world the operator does not control. steady holds the nodes that never
      left since it was last reset; finished the jobs that completed, by uid. */
  datatype Sky = Sky(events: seq<Event>, nodes: set<string>, steady: set<string>, finished: set<nat>,
                     readiness: map<string, Readiness>)

  function Next(sky: Sky, live: set<nat>): Sky {
    if sky.events == [] then sky
    else
      var e := sky.events[0];
      Sky(sky.events[1..], (sky.nodes - e.vanish) + e.appear, sky.steady - e.vanish, sky.finished + (e.finish * live),
          sky.readiness + e.readiness)
  }

  /** What becomes of a request to come. */
  function FaultAt(events: seq<Event>, i: nat): Fault {
    if i < |events| then events[i].fault else Fine
  }

  /** Requests may fail on the way back, but none is refused. */
  predicate Obliging(events: seq<Event>) {
    forall i | 0 <= i < |events| :: !events[i].fault.Refused?
  }

  /** What any number of events can do. */
  ghost predicate Later(a: Sky, b: Sky) {
    && b.steady <= a.steady && a.finished <= b.finished
    && (a.steady <= a.nodes ==> b.steady <= b.nodes)
    && (Obliging(a.events) ==> Obliging(b.events))
    && (a.events == [] ==> b == a.(readiness := b.readiness))
  }

  function Uids(jobs: map<string, Job>): set<nat> {
    set j | j in jobs :: jobs[j].uid
  }

  /** What requests that leave the jobs alone can do: of the jobs, only existing ones complete. */
  ghost predicate Passed(a: Sky, b: Sky, jobs: map<string, Job>) {
    Later(a, b) && b.finished <= a.finished + Uids(jobs)
  }

  lemma PassedTransitive(a: Sky, b: Sky, c: Sky, jobs: map<string, Job>)
    requires Passed(a, b, jobs) && Passed(b, c, jobs)
    ensures Passed(a, c, jobs)
    ensures Quiet(a, b, jobs) && Quiet(b, c, jobs) ==> Quiet(a, c, jobs)
    ensures a.events == [] ==> b.events == []
  {
  }

  /** The same, for requests that leave the daemon sets alone: in a calm cluster nothing happens. */
  ghost predicate Quiet(a: Sky, b: Sky, jobs: map<string, Job>) {
    Passed(a, b, jobs) && (a.events == [] ==> b == a)
  }

  lemma QuietPasses(a: Sky, b: Sky, jobs: map<string, Job>)
    requires Quiet(a, b, jobs)
    ensures Passed(a, b, jobs) && (a.events == [] ==> b.events == [])
  {
  }

  lemma QuietTransitive(a: Sky, b: Sky, c: Sky, jobs: map<string, Job>)
    requires Quiet(a, b, jobs) && Quiet(b, c, jobs)
    ensures Quiet(a, c, jobs) && (a.events == [] ==> b.events == [])
  {
  }

  lemma QuietMeans(a: Sky, b: Sky, jobs: map<string, Job>)
    requires Quiet(a, b, jobs)
    ensures Later(a, b) && a.finished <= b.finished <= a.finished + Uids(jobs)
    ensures a.steady <= a.nodes ==> b.steady <= b.nodes
    ensures a.events == [] ==> b == a
  {
  }

  lemma LaterMeans(a: Sky, b: Sky)
    requires Later(a, b)
    ensures b.steady <= a.steady && (a.steady <= a.nodes ==> b.steady <= b.nodes)
  {
  }

  lemma StillObliging(a: Sky, b: Sky)
    requires Later(a, b)
    ensures Obliging(a.events) ==> Obliging(b.events)
  {
  }

  lemma CalmIsStill(a: Sky, b: Sky)
    requires Later(a, b)
    ensures a.events == [] ==> b == a.(readiness := b.readiness)
  {
  }

  lemma CalmStays(a: Sky, b: Sky)
    requires Later(a, b)
    ensures a.events == [] ==> b.events == []
  {
  }

  lemma LaterTransitive(a: Sky, b: Sky, c: Sky)
    requires Later(a, b) && Later(b, c)
    ensures Later(a, c)
  {
  }

  lemma QuietHere(a: Sky, jobs: map<string, Job>)
    ensures Quiet(a, a, jobs)
  {
  }

  lemma StillCalm(a: Sky, b: Sky, jobs: map<string, Job>)
    requires Quiet(a, b, jobs)
    ensures a.events == [] ==> b.events == []
  {
  }

  /** The next requests are served, and nothing happens before them. */
  predicate Smooth(sky: Sky, n: nat) {
    n <= |sky.events| && forall i | 0 <= i < n :: sky.events[i] == Event(Fine, {}, {}, {}, map[])
  }

  /** That many events later, and nothing else. */
  predicate Skipped(a: Sky, b: Sky, n: nat) {
    n <= |a.events| && b == a.(events := a.events[n..])
  }

  lemma SkipKeepsNodes(a: Sky, b: Sky, n: nat)
    requires Skipped(a, b, n)
    ensures b.nodes == a.nodes
  {
  }

  lemma SkipNone(a: Sky)
    ensures Skipped(a, a, 0)
  {
  }

  lemma SkipStep(a: Sky, b: Sky, m: nat, n: nat)
    requires Smooth(a, n) && Skipped(a, b, m) && m < n
    ensures Smooth(b, 1)
    ensures forall c | Skipped(b, c, 1) :: Skipped(a, c, m + 1)
  {
  }

  lemma SmoothLess(a: Sky, n: nat, m: nat)
    requires Smooth(a, n) && m <= n
    ensures Smooth(a, m)
  {
  }

  lemma SkipOn(a: Sky, b: Sky, m: nat, n: nat)
    requires Smooth(a, m + n) && Skipped(a, b, m)
    ensures Smooth(b, n) && Smooth(a, m)
    ensures forall c | Skipped(b, c, n) :: Skipped(a, c, m + n)
  {
  }

  /** Existing entries are kept as they are. */
  ghost predicate Kept<K, V>(a: map<K, V>, b: map<K, V>) {
    forall k | k in a :: k in b && b[k] == a[k]
  }

  predicate Bears(labels: map<string, string>, k: string, v: string) {
    k in labels && labels[k] == v
  }

  function ReadinessOf(sky: Sky, name: string): Readiness {
    if name in sky.readiness then sky.readiness[name] else Readiness(0, 0, 0)
  }

  // --------------------------------------------------------------------------- objects

  /** A pod, with the uid of the daemon set that controls it; app says it carries the app label. */
  datatype Pod = Pod(node: string, owner: nat, terminating: bool, app: bool)

  /** What a pool deployment runs: which claim is mounted where, and on which node. deprecated
      stands for the deprecated service account field, which the API server fills in. */
  datatype DeploymentSpec = DeploymentSpec(pool: string, node: string, claim: string, path: string, block: bool,
                                           serviceAccount: string, deprecated: string)

  /** controlled: the custom resource is the controlling owner. */
  datatype Deployment = Deployment(controlled: bool, labels: map<string, string>, spec: DeploymentSpec, ready: nat)

  datatype ClaimPhase = Pending | Bound | Lost

  datatype Claim = Claim(labels: map<string, string>, template: ClaimTemplate, phase: ClaimPhase)

  datatype Job = Job(pool: string, node: string, uid: nat)

  /** A job that was created at some time, under the uid it got. */
  datatype JobRecord = JobRecord(name: string, pool: string, node: string)

  datatype StorageClass = StorageClass(pool: string)

  datatype PoolArg = PoolArg(name: string, path: string, snapshotProvider: Option<string>, shared: bool)

  /** The pod template of a daemon set: a function of these inputs. */
  datatype PodTemplate = PodTemplate(path: string, prefix: bool, pools: seq<PoolArg>, workload: string, snapshots: bool)

  datatype DaemonSet = DaemonSet(owners: set<string>, labels: map<string, string>, selector: map<string, string>,
                                 serviceAccount: string, template: PodTemplate, scheduler: string, uid: nat)

  datatype ObjectKind = ClusterRole | ClusterRoleBinding | Role | RoleBinding | CSIDriver | SecurityContextConstraints
                      | PrometheusRule | Service | ServiceMonitor | ServiceAccount

  datatype Key = Key(kind: ObjectKind, name: string)

  datatype ClaimStatus = ClaimStatus(name: string, phase: ClaimPhase)

  datatype PoolStatus = PoolStatus(name: string, desiredReady: nat, currentReady: nat, claims: seq<ClaimStatus>)

  /** The custom resource as stored; every update gives it a new revision. */
  datatype Resource = Resource(
    revision: nat,
    spec: Spec,
    deleting: bool,
    finalizers: seq<string>,
    conditions: seq<Conditions.Condition>,
    operatorVersion: string,
    targetVersion: string,
    observedVersion: string,
    poolStatuses: seq<PoolStatus>)

  // -------------------------------------------------------------------------- requests

  datatype Reply = Ok | NotFound | AlreadyExists | Failed

  /** Errors a reconcile can end with. */
  datatype Error =
    | Request                       // a request failed
    | Missing(name: string)         // something that has to exist does not
    | JunkSelector(name: string)    // a daemon set with extra selector labels was deleted
    | MergeFailed
    | NotBound(claim: string)
    | Downgraded
    | Several                       // more than one custom resource

  predicate ReadFails(f: Fault) { !f.Fine? }

  function Got<K(==), V>(m: map<K, V>, name: K, f: Fault): Reply {
    if ReadFails(f) then Failed else if name in m then Ok else NotFound
  }

  function Created<K(==), V>(m: map<K, V>, name: K, v: V, f: Fault): (r: (Reply, map<K, V>)) {
    var effect := if name in m || f.Refused? then m else m[name := v];
    (if !f.Fine? then Failed else if name in m then AlreadyExists else Ok, effect)
  }

  function Updated<K(==), V>(m: map<K, V>, name: K, v: V, f: Fault): (r: (Reply, map<K, V>)) {
    var effect := if name !in m || f.Refused? then m else m[name := v];
    (if !f.Fine? then Failed else if name !in m then NotFound else Ok, effect)
  }

  function Deleted<K(==), V>(m: map<K, V>, name: K, f: Fault): (r: (Reply, map<K, V>)) {
    var effect := if f.Refused? then m else m - {name};
    (if !f.Fine? then Failed else if name !in m then NotFound else Ok, effect)
  }

  class Client {
    var sky: Sky
    var pods: map<string, Pod>
    var daemonSets: map<string, DaemonSet>
    var deployments: map<string, Deployment>
    var claims: map<string, Claim>
    var jobs: map<string, Job>
    var classes: map<string, StorageClass>
    var objects: map<Key, Tree>
    var cr: Option<Resource>
    var nextUid: nat
    var writes: nat                       // create and update requests, and deletions of what is there
    ghost var log: map<nat, JobRecord>    // every job created since the record began, by uid
    ghost var refused: set<string>        // names of jobs whose creation failed for another reason than existing

    const sccUsed: bool                           // the API group of security context constraints is served
    const prometheusUsed: bool                    // and that of Prometheus rules
    const name: string                            // name of the custom resource
    const manifest: (Key, Spec) -> Tree           // the object the operator builds for a key

    /** One request is about to be served. */
    method Tick() returns (f: Fault)
      modifies this`sky
      ensures sky == Next(old(sky), Uids(jobs))
      ensures Quiet(old(sky), sky, jobs)
      ensures f == FaultAt(old(sky.events), 0)
      ensures Smooth(old(sky), 1) ==> f.Fine? && Skipped(old(sky), sky, 1)
    {
      f := if sky.events == [] then Fine else sky.events[0].fault;
      sky := Next(sky, Uids(jobs));
    }
  }

  /** The operator's copy of the custom resource, which a run changes before it writes it back. */
  class Instance {
    var resource: Resource

    constructor (resource: Resource)
      ensures this.resource == resource
    {
      this.resource := resource;
    }
  }
}
