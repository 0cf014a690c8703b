// The life of the custom resource: its finalizer, its conditions and its versions, and how a run
// writes them back (cr.go, controller.go).

module Lifecycle {
  import opened CustomResource
  import opened Conditions
  import opened Cluster
  import Versions

  const DEPLOY_STARTED := "DeployStarted"
  const DEPLOYING := "Started Deployment"
  const UPGRADE_STARTED := "UpgradeStarted"
  const FINALIZER := "finalizer.delete.hostpath-provisioner"

  // ------------------------------------------------------------------------- conditions

  /** The three statuses are those of one of the five phases. */
  ghost predicate InPhase(cs: seq<Condition>) {
    exists phase :: Statuses(cs) == TripleOf(phase)
  }

  /** Either nothing was deployed yet, or there is one entry per kind and the statuses agree on a
      phase. */
  ghost predicate Live(c: Resource) {
    (c.conditions == [] && c.observedVersion == "") || (Complete(c.conditions) && InPhase(c.conditions))
  }

  ghost predicate KindsKept(a: seq<Condition>, b: seq<Condition>) {
    forall k | Has(a, k) :: Has(b, k)
  }

  lemma MarkKeepsKinds(cs: seq<Condition>, phase: Phase, reason: string, message: string, now: nat)
    ensures KindsKept(cs, Marked(cs, phase, reason, message, now))
  {
    var t, s := TripleOf(phase), Spokesman(phase);
    var first := WithCondition(cs, Available, t.available, if s == Available then reason
                               else "", if s == Available then message else "", now);
    var second := WithCondition(first, Progressing, t.progressing, if s == Progressing then reason
                                else "", if s == Progressing then message else "", now);
    forall k | Has(cs, k) ensures Has(Marked(cs, phase, reason, message, now), k) {
      IndexAfterSet(cs, Available, t.available, if s == Available then reason else "", if s == Available then message
                    else "", now, k);
      IndexAfterSet(first, Progressing, t.progressing, if s == Progressing then reason
                    else "", if s == Progressing then message else "", now, k);
      IndexAfterSet(second, Degraded, t.degraded, if s == Degraded then reason else "", if s == Degraded then message
                    else "", now, k);
    }
  }

  method SetStatusCondition(cr: Instance, kind: Kind, status: Truth, reason: string, message: string, now: nat)
    modifies cr
    ensures cr.resource == old(cr.resource).(conditions := WithCondition(old(cr.resource.conditions), kind, status,
                                                                         reason, message, now))
  {
    var cs := cr.resource.conditions;
    var i := Index(cs, kind);
    if i == |cs| {
      cr.resource := cr.resource.(conditions := cs + [Condition(kind, status, reason, message, now, now)]);
      return;
    }
    var c := cs[i];
    if c.status != status { c := c.(status := status, transition := now); }
    c := c.(reason := reason, message := message, heartbeat := now);
    cr.resource := cr.resource.(conditions := cs[i := c]);
  }

  /** The five Mark functions: the conditions of a phase, one after the other. */
  method Mark(cr: Instance, phase: Phase, reason: string, message: string, now: nat)
    modifies cr
    ensures cr.resource == old(cr.resource).(conditions := Marked(old(cr.resource.conditions), phase, reason, message,
                                                                  now))
    ensures KindsKept(old(cr.resource.conditions), cr.resource.conditions)
    ensures Distinct(old(cr.resource.conditions)) ==>
              Complete(cr.resource.conditions) && Statuses(cr.resource.conditions) == TripleOf(phase)
              && InPhase(cr.resource.conditions)
  {
    var t, s := TripleOf(phase), Spokesman(phase);
    MarkKeepsKinds(cr.resource.conditions, phase, reason, message, now);
    if Distinct(cr.resource.conditions) { MarkSetsPhase(cr.resource.conditions, phase, reason, message, now); }
    SetStatusCondition(cr, Available, t.available, if s == Available then reason else "", if s == Available then message
                       else "", now);
    SetStatusCondition(cr, Progressing, t.progressing, if s == Progressing then reason
                       else "", if s == Progressing then message else "", now);
    SetStatusCondition(cr, Degraded, t.degraded, if s == Degraded then reason else "", if s == Degraded then message
                       else "", now);
  }

  // ---------------------------------------------------------------------- writing it back

  /** The API server takes an update of an instance that is up to date, and gives it its next
      revision; a resource being deleted goes once its finalizers are gone. */
  function Accepted(c: Resource): Option<Resource> {
    if c.deleting && c.finalizers == [] then None else Some(c.(revision := c.revision + 1))
  }

  method Update(r: Client, cr: Instance) returns (err: Option<Error>)
    modifies r`sky, r`cr, r`writes, cr
    ensures Quiet(old(r.sky), r.sky, r.jobs)
    ensures r.cr == old(r.cr) || r.cr == Accepted(old(cr.resource))
    ensures err.None? ==> r.cr == Accepted(old(cr.resource))
    ensures cr.resource == if err.None? then old(cr.resource).(revision := old(cr.resource.revision) + 1)
                           else old(cr.resource)
    ensures r.writes == old(r.writes) + 1
    ensures old(r.sky.events) == [] ==> err.None?
  {
    var f := r.Tick();
    r.writes := r.writes + 1;
    if !f.Refused? { r.cr := Accepted(cr.resource); }
    if !f.Fine? { return Some(Request); }
    cr.resource := cr.resource.(revision := cr.resource.revision + 1);
    err := None;
  }

  // --------------------------------------------------------------------- what a run may do

  function WithFinalizer(c: Resource): Resource {
    if FINALIZER in c.finalizers then c else c.(finalizers := c.finalizers + [FINALIZER])
  }

  /** What a run of an operator of some version may make of the resource it found. */
  ghost predicate Lawful(a: Resource, c: Resource, version: string) {
    && c.spec == a.spec && c.deleting == a.deleting && c.finalizers in {a.finalizers, WithFinalizer(a).finalizers}
    && (Live(a) ==> Live(c)) && KindsKept(a.conditions, c.conditions)
    && (c.observedVersion == a.observedVersion
        || (c.observedVersion == version && Versions.CanUpgrade(a.observedVersion, version) != Versions.Downgrade))
  }

  /** What it may leave stored: an operator that would downgrade adds its finalizer at most. */
  ghost predicate Stored(a: Resource, now: Option<Resource>, version: string) {
    && now.Some? && Lawful(a, now.value, version)
    && (Versions.CanUpgrade(a.observedVersion, version) == Versions.Downgrade ==>
          now.value.(revision := a.revision) in {a, WithFinalizer(a)})
  }

  function UpgradeMessage(version: string): string {
    "Started upgrade to version " + version
  }

  /** Adds the finalizer if it is not there. */
  method AddFinalizer(r: Client, cr: Instance) returns (err: Option<Error>)
    requires r.cr == Some(cr.resource) && !cr.resource.deleting
    modifies r`sky, r`cr, r`writes, cr
    ensures Quiet(old(r.sky), r.sky, r.jobs)
    ensures err.None? ==> r.cr == Some(cr.resource)
    ensures
      && r.cr.Some?
      && r.cr.value.(revision := old(cr.resource.revision)) in {old(cr.resource), WithFinalizer(old(cr.resource))}
    ensures err.None? ==> cr.resource.(revision := old(cr.resource.revision)) == WithFinalizer(old(cr.resource))
    ensures err.None? ==>
              cr.resource.revision == if FINALIZER in old(cr.resource.finalizers) then old(cr.resource.revision)
              else old(cr.resource.revision) + 1
    ensures FINALIZER in old(cr.resource.finalizers) ==> err.None? && r.sky == old(r.sky) && r.writes == old(r.writes)
    ensures old(r.sky.events) == [] ==> err.None?
  {
    err := None;
    if FINALIZER !in cr.resource.finalizers {
      cr.resource := cr.resource.(finalizers := cr.resource.finalizers + [FINALIZER]);
      err := Update(r, cr);
    }
  }

  /** A deployment or an upgrade starts, which is stored before anything is reconciled. */
  predicate Announces(a: Resource, version: string) {
    a.observedVersion == "" || Versions.CanUpgrade(a.observedVersion, version) == Versions.Upgrade
  }

  /** What the conditions say after the announcement. */
  ghost predicate Announced(a: Resource, begun: Resource, version: string) {
    if a.observedVersion == "" then Shows(begun.conditions, Deploying, DEPLOY_STARTED, DEPLOYING)
    else if Versions.CanUpgrade(a.observedVersion, version) == Versions.Upgrade then
      Shows(begun.conditions, Upgrading, UPGRADE_STARTED, UpgradeMessage(version))
    else begun.conditions == a.conditions
  }

  /** The resource in memory once a run has started. */
  ghost predicate Begun(a: Resource, begun: Resource, version: string) {
    && Versions.CanUpgrade(a.observedVersion, version) != Versions.Downgrade
    && Lawful(a, begun, version) && begun.observedVersion == a.observedVersion && begun.poolStatuses == a.poolStatuses
    && begun.finalizers == WithFinalizer(a).finalizers && begun.operatorVersion == begun.targetVersion == version
    && (Live(a) ==> Complete(begun.conditions))
    && (Distinct(a.conditions) ==> Distinct(begun.conditions)
                                   && Statuses(begun.conditions) == StatusesAtStart(a, version))
  }

  /** The start of a run: finalizer, versions, and the announcement of a deployment or upgrade. */
  method Begin(r: Client, cr: Instance, version: string, now: nat) returns (err: Option<Error>)
    requires r.cr == Some(cr.resource) && !cr.resource.deleting
    modifies r`sky, r`cr, r`writes, cr
    ensures Quiet(old(r.sky), r.sky, r.jobs)
    ensures Stored(old(cr.resource), r.cr, version)
    ensures err.None? ==> Begun(old(cr.resource), cr.resource, version)
    ensures err.None? && Distinct(old(cr.resource.conditions)) ==> Announced(old(cr.resource), cr.resource, version)
    ensures err.None? && cr.resource.revision == old(cr.resource.revision) ==> r.cr == old(r.cr)

    ensures err.None? && Announces(old(cr.resource), version) ==> r.cr == Some(cr.resource)
    ensures FINALIZER in old(cr.resource.finalizers) && version != "" && old(cr.resource.observedVersion) == version ==>
              && err.None? && r.cr == old(r.cr) && r.writes == old(r.writes) && r.sky == old(r.sky)
              && cr.resource == old(cr.resource).(operatorVersion := version, targetVersion := version)
    ensures old(r.sky.events) == [] ==>
              (err.None? <==> Versions.CanUpgrade(old(cr.resource.observedVersion), version) != Versions.Downgrade)
    ensures old(r.sky.events) == [] && err.Some? ==> err == Some(Downgraded)

  {
    hide Marked, Statuses, KindsKept, Complete, Versions.CanUpgrade, Uids, Obliging, Distinct, Announced,
      DEPLOY_STARTED, DEPLOYING, UPGRADE_STARTED, UpgradeMessage, FINALIZER;
    ghost var a := cr.resource;

    LiveIsDistinct(a);
    DecisionFacts(a.observedVersion, version);
    err := AddFinalizer(r, cr);
    if err.Some? { return; }
    cr.resource := cr.resource.(operatorVersion := version, targetVersion := version);
    var decision := Versions.CanUpgrade(cr.resource.observedVersion, version);
    if decision == Versions.Downgrade { return Some(Downgraded); }
    if cr.resource.observedVersion == "" {
      Mark(cr, Deploying, DEPLOY_STARTED, DEPLOYING, now);
      err := Update(r, cr);
      if err.Some? { return; }
    }
    if decision == Versions.Upgrade && cr.resource.observedVersion != "" && cr.resource.observedVersion != version {
      Mark(cr, Upgrading, UPGRADE_STARTED, UpgradeMessage(version), now);
      err := Update(r, cr);
      if err.Some? { return; }
    }
    AnnouncedNow(a, cr.resource, version, now);
  }

  lemma AnnouncedNow(a: Resource, begun: Resource, version: string, now: nat)
    requires begun.conditions ==
             if a.observedVersion == "" then Marked(a.conditions, Deploying, DEPLOY_STARTED, DEPLOYING, now)
             else if Versions.CanUpgrade(a.observedVersion, version) == Versions.Upgrade then
               Marked(a.conditions, Upgrading, UPGRADE_STARTED, UpgradeMessage(version), now)
             else a.conditions
    ensures Distinct(a.conditions) ==> Announced(a, begun, version)
  {
    hide Marked, Versions.CanUpgrade, Shows, Distinct;
    if Distinct(a.conditions) {
      MarkShows(a.conditions, Deploying, DEPLOY_STARTED, DEPLOYING, now);
      MarkShows(a.conditions, Upgrading, UPGRADE_STARTED, UpgradeMessage(version), now);
    }
  }

  lemma LiveIsDistinct(a: Resource)
    ensures Live(a) ==> Distinct(a.conditions)
    ensures Live(a) && a.observedVersion != "" ==> Complete(a.conditions)
    ensures Complete(a.conditions) ==> Distinct(a.conditions)
    ensures KindsKept(a.conditions, a.conditions)
  {
  }

  lemma DecisionFacts(current: string, target: string)
    ensures current == "" || current == target ==> Versions.CanUpgrade(current, target) == Versions.Keep
  {
  }

  /** The statuses a run starts from. */
  ghost function StatusesAtStart(a: Resource, version: string): Triple {
    if a.observedVersion == "" then TripleOf(Deploying)
    else if Versions.CanUpgrade(a.observedVersion, version) == Versions.Upgrade then TripleOf(Upgrading)
    else Statuses(a.conditions)
  }

  // ------------------------------------------------------------------------ the end of a run

  ghost predicate Comparable(copy: seq<Condition>, now: seq<Condition>) {
    forall i | 0 <= i < |copy| :: Index(now, copy[i].kind) < |now|
  }

  /** Since no kind is ever dropped, every condition of the copy is found again. */
  lemma KindsAreComparable(copy: seq<Condition>, now: seq<Condition>)
    requires KindsKept(copy, now)
    ensures Comparable(copy, now)
  {
    forall i | 0 <= i < |copy| ensures Index(now, copy[i].kind) < |now| { assert Has(copy, copy[i].kind); }
  }

  lemma MaskKeepsStatuses(copy: seq<Condition>, now: seq<Condition>)
    requires Comparable(copy, now)
    ensures Statuses(Masked(copy, now)) == Statuses(copy)
    ensures Distinct(Masked(copy, now)) <==> Distinct(copy)
  {
    var m := Masked(copy, now);
    forall k ensures Index(m, k) == Index(copy, k) && StatusOf(m, k) == StatusOf(copy, k) {
      var i, j := Index(m, k), Index(copy, k);
      if i < |copy| { assert copy[i].kind == k; }
      if j < |copy| { assert m[j].kind == k; }
    }
    forall i | 0 <= i < |copy| ensures Index(m, m[i].kind) == Index(copy, copy[i].kind) {
      assert m[i].kind == copy[i].kind;
    }
  }

  /** Nothing differs but heartbeats. */
  ghost predicate Unchanged(copy: Resource, now: Resource) {
    SameButHeartbeats(copy.conditions, now.conditions) && now == copy.(conditions := now.conditions)
  }

  /** Heartbeats aside, has the run changed the resource? If so it is written back. */
  method Finish(r: Client, cr: Instance, copy: Resource) returns (err: Option<Error>)
    requires KindsKept(copy.conditions, cr.resource.conditions)
    modifies r`sky, r`cr, r`writes, cr
    ensures Quiet(old(r.sky), r.sky, r.jobs)
    ensures r.cr == old(r.cr) || r.cr == Accepted(old(cr.resource))
    ensures err.None? ==>
              || r.cr == Accepted(old(cr.resource))
              || (r.cr == old(r.cr) && old(cr.resource).(conditions := copy.conditions) == copy
                  && Statuses(copy.conditions) == Statuses(old(cr.resource.conditions))
                  && (Distinct(copy.conditions) ==> SameButHeartbeats(copy.conditions, old(cr.resource.conditions))))
    ensures Distinct(copy.conditions) && Unchanged(copy, old(cr.resource)) ==>
              err.None? && r.cr == old(r.cr) && r.writes == old(r.writes) && r.sky == old(r.sky)
    ensures Distinct(copy.conditions) && !Unchanged(copy, old(cr.resource)) ==> r.writes == old(r.writes) + 1
    ensures old(r.sky.events) == [] ==> err.None?
  {
    KindsAreComparable(copy.conditions, cr.resource.conditions);
    MaskKeepsStatuses(copy.conditions, cr.resource.conditions);
    if Distinct(copy.conditions) { MaskIsExact(copy.conditions, cr.resource.conditions); }
    err := None;
    var masked := copy.(conditions := Masked(copy.conditions, cr.resource.conditions));
    if masked != cr.resource { err := Update(r, cr); }
  }

  // ------------------------------------------------------------------------ the finalizer

  /** A list without any occurrence of x. */
  function Without(s: seq<string>, x: string): (r: seq<string>)
    ensures x !in r && forall y | y in s && y != x :: y in r
  {
    if s == [] then [] else (if s[0] == x then [] else [s[0]]) + Without(s[1..], x)
  }

  lemma {:induction false} WithoutSnoc(s: seq<string>, y: string, x: string)
    ensures Without(s + [y], x) == Without(s, x) + if y == x then [] else [y]
  {
    if s != [] {
      WithoutSnoc(s[1..], y, x);
      assert (s + [y])[1..] == s[1..] + [y];
    }
  }

  lemma {:induction false} WithoutAbsent(s: seq<string>, x: string)
    requires x !in s
    ensures Without(s, x) == s
  {
    if s != [] { WithoutAbsent(s[1..], x); }
  }

  method RemoveFinalizer(cr: Instance)
    modifies cr
    ensures cr.resource == old(cr.resource).(finalizers := Without(old(cr.resource.finalizers), FINALIZER))
  {
    var all, kept := cr.resource.finalizers, [];
    if FINALIZER !in all {
      WithoutAbsent(all, FINALIZER);
      return;
    }
    for i := 0 to |all|
      invariant kept == Without(all[..i], FINALIZER) && cr.resource == old(cr.resource)
    {
      assert all[..i + 1] == all[..i] + [all[i]];
      WithoutSnoc(all[..i], all[i], FINALIZER);
      if all[i] != FINALIZER { kept := kept + [all[i]]; }
    }
    assert all[..|all|] == all;
    cr.resource := cr.resource.(finalizers := kept);
  }
}
