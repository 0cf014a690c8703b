// What the handling of the ownerless objects guarantees: a completed pass leaves nothing to do,
// and a deletion leaves nothing behind.

module ObjectProofs {
  import opened CustomResource
  import opened Json
  import opened Cluster
  import opened Drift
  import opened DriftProofs
  import opened Objects

  // --------------------------------------------------------------- a pass leaves nothing to do

  /** What the API server guarantees about a found object, and, for the two kinds that are merged
      differently, what the merge relies on. */
  ghost predicate WellFound(key: Key, desired: Tree, found: Tree) {
    && Stored(found) && SameName(desired, found)
    && (key.kind.CSIDriver? ==> StoredDriver(found))
    && (key.kind.PrometheusRule? ==> Annotated(found) && NullFree(found))
  }

  /** What the operator builds. Only the driver and the rule are known to hold no nulls. */
  ghost predicate WellBuilt(key: Key, desired: Tree) {
    Built(desired) && (key.kind.CSIDriver? ==> BuiltDriver(desired)) && (key.kind.PrometheusRule? ==> NullFree(desired))
  }

  /** Unset optional fields of security context constraints, such as the priority, are encoded as
      nulls. An object stays as the operator builds it when such a field is added. */
  lemma NullsAreBuilt(key: Key, desired: Tree, field: string)
    requires WellBuilt(key, desired) && !key.kind.CSIDriver? && !key.kind.PrometheusRule? && field != "metadata"
    ensures WellBuilt(key, Set(desired, field, Null)) && !NullFree(Set(desired, field, Null))
  {
    var t := Set(desired, field, Null);
    assert t.fields[field] == Null;
    assert Meta(t) == Meta(desired);
    forall k | k in Bare(t).fields ensures NullFree(Bare(t).fields[k]) {
      BareAt(t, k);
      BareAt(desired, k);
    }
  }

  /** The last-applied annotation is there and holds an object. */
  predicate Annotated(found: Tree) {
    var notes := Section(found, "annotations").fields;
    LAST_APPLIED in notes && notes[LAST_APPLIED].Text? && notes[LAST_APPLIED].doc.Obj?
  }

  lemma StampedWithItself(t: Tree)
    requires "metadata" in t.fields && t.fields["metadata"].Obj?
    ensures Stamped(t, t) == t
  {
    var m := Meta(t).fields;
    if "creationTimestamp" in m { assert m["creationTimestamp" := m["creationTimestamp"]] == m; }
    else { assert m - {"creationTimestamp"} == m; }
    assert t.fields["metadata" := Meta(t)] == t.fields;
  }

  /** The rule that is its own desired object is never repaired: whatever the operator wants, the
      merge returns what was found, or fails when the annotation is missing. */
  lemma RuleNeverRepaired(name: string, desired: Tree, found: Tree)
    requires Stored(found) && NullFree(found) && "name" in Meta(found).fields && Meta(found).fields["name"].Str?
    ensures Aim(Key(PrometheusRule, name), desired, Some(found)) == if Annotated(found) then Repaired(found)
                                                                    else NoAnnotation
  {
    if Annotated(found) {
      var original := Section(found, "annotations").fields[LAST_APPLIED].doc;
      StampedWithItself(found);
      ThreeWayMeans(original, found, found);
      MeaningOverItself(original, found);
      NameUntouched(original, found, found);
    }
  }

  /** A freshly created object is in shape. */
  lemma CreatedInShape(key: Key, desired: Tree)
    requires WellBuilt(key, desired)
    ensures InShape(map[key := WithLastApplied(desired)], key, desired)
    ensures WellFound(key, desired, WithLastApplied(desired))
  {
    hide RepairOf, Laid;
    var made := WithLastApplied(desired);
    CreatedAtRest(desired);
    if key.kind.PrometheusRule? {
      AnnotatedIsPrepared(desired);
      RuleNeverRepaired(key.name, desired, made);
    } else if key.kind.CSIDriver? {
      AnnotatedIsPrepared(desired);
      assert StoredDriver(made) by { assert NullFree(Sub(made, "spec")); }
      SameSpec(made);
    }
  }

  lemma SameSpec(t: Tree)
    requires "spec" in t.fields && t.fields["spec"].Obj?
    ensures WithImmutable(t, t) == t
  {
    var s := Sub(t, "spec").fields;
    TakenFromItself(s, "attachRequired");
    TakenFromItself(s, "podInfoOnMount");
    TakenFromItself(s, "volumeLifecycleModes");
    TakenFromItself(s, "storageCapacity");
    hide Taken;
    assert t.fields["spec" := Obj(s)] == t.fields;
  }

  lemma TakenFromItself(s: map<string, Json>, k: string)
    ensures Taken(s, s, k) == s
  {
  }

  lemma DriverInShape(key: Key, desired: Tree, found: Tree)
    requires key.kind.CSIDriver? && WellBuilt(key, desired) && WellFound(key, desired, found)
    ensures var aim := Aim(key, desired, Some(found));
            aim.Repaired? && InShape(map[key := aim.tree], key, desired) && WellFound(key, desired, aim.tree)
  {
    hide RepairOf, WithImmutable, WithLastApplied, Built, IMMUTABLE;
    DriverRepair(desired, found);
    DriverStays(desired, found);
  }

  lemma OtherInShape(key: Key, desired: Tree, found: Tree)
    requires !key.kind.CSIDriver? && !key.kind.PrometheusRule? && WellBuilt(key, desired)
             && WellFound(key, desired, found)
    ensures var aim := Aim(key, desired, Some(found));
            aim.Repaired? && InShape(map[key := aim.tree], key, desired) && WellFound(key, desired, aim.tree)
  {
    hide RepairOf, WithLastApplied, Built;
    RepairAgain(desired, found);
  }

  lemma SameNameAnnotated(desired: Tree, t: Tree)
    requires Built(desired)
    ensures SameName(WithLastApplied(desired), t) <==> SameName(desired, t)
  {
    BareMetadata(desired);
  }

  lemma DriverIsBuilt(desired: Tree)
    requires BuiltDriver(desired)
    ensures Built(desired) && NullFree(desired)
  {
  }

  /** A repaired driver is again what the API server would return. */
  lemma DriverStays(desired: Tree, found: Tree)
    requires BuiltDriver(desired) && StoredDriver(found) && SameName(desired, found)
    ensures var once := RepairOf(WithImmutable(WithLastApplied(desired), found), found);
            once.Repaired? && StoredDriver(once.tree) && SameName(desired, once.tree)
  {
    hide RepairOf, WithLastApplied, Built, Prepared;
    DriverIsBuilt(desired);
    var modified := WithImmutable(WithLastApplied(desired), found);
    AnnotatedIsPrepared(desired);
    DriverIsPrepared(desired, found);
    SameNameAnnotated(desired, found);
    RepairIdempotent(desired, modified, found);
    RepairMeans(desired, modified, found);
    DriverRepair(desired, found);
    SpecStays(desired, modified, found);
    SameNameAnnotated(desired, RepairOf(modified, found).tree);
  }

  lemma SpecStays(original: Tree, modified: Tree, found: Tree)
    requires "spec" in found.fields && found.fields["spec"].Obj? && "spec" in modified.fields
             && modified.fields["spec"].Obj?
    ensures var t := Meaning(original, Stamped(modified, found), found); "spec" in t.fields && t.fields["spec"].Obj?
  {
  }

  /** Whatever is found, once aimed for it is in shape. */
  lemma AimInShape(key: Key, desired: Tree, found: Option<Tree>)
    requires WellBuilt(key, desired) && (found.Some? ==> WellFound(key, desired, found.value))
    ensures var aim := Aim(key, desired, found);
            aim.Repaired? && InShape(map[key := aim.tree], key, desired) && WellFound(key, desired, aim.tree)
  {
    match found
    case None => CreatedInShape(key, desired);
    case Some(f) =>
      if key.kind.PrometheusRule? {
        RuleNeverRepaired(key.name, desired, f);
      } else if key.kind.CSIDriver? {
        DriverInShape(key, desired, f);
      } else {
        OtherInShape(key, desired, f);
      }
  }

  /** What a run makes of a found object: nothing of the rule; of everything else but the driver, the found object
    with the annotated desired one laid over it. What is not there is created with its annotation. */
  lemma AimMeans(key: Key, desired: Tree, found: Tree)
    requires WellBuilt(key, desired) && WellFound(key, desired, found)
    ensures Aim(key, desired, None) == Repaired(WithLastApplied(desired))
    ensures Section(WithLastApplied(desired), "annotations").fields ==
            Section(desired, "annotations").fields["hostpathprovisioner.kubevirt.io/lastAppliedConfiguration"
            := Text(desired)]
    ensures key.kind.PrometheusRule? ==> Aim(key, desired, Some(found)) == Repaired(found)
    ensures !key.kind.PrometheusRule? && !key.kind.CSIDriver? ==>
              Aim(key, desired, Some(found)) == Repaired(Overlay(found, Laid(desired, found)))
  {
    hide RepairOf, WithLastApplied, Overlay, Laid;

    BareMetadata(desired);
    if key.kind.PrometheusRule? { RuleNeverRepaired(key.name, desired, found); }
    else if !key.kind.CSIDriver? { RepairIsOverlay(desired, found); }
  }

  /** What a run makes of a found driver, field by field of its spec: the four that no update may change stay as
      found, a value or list that the operator wants is there, and what it says nothing about is kept. */
  lemma DriverAimMeans(key: Key, desired: Tree, found: Tree, k: string)
    requires key.kind.CSIDriver? && WellBuilt(key, desired) && WellFound(key, desired, found)
    ensures Aim(key, desired, Some(found)).Repaired?
    ensures var mine, theirs := Sub(desired, "spec").fields, Sub(found, "spec").fields;
            var after := Sub(Aim(key, desired, Some(found)).tree, "spec").fields;
            if k in {"attachRequired", "podInfoOnMount", "volumeLifecycleModes", "storageCapacity"} || k !in mine then
              (k in after <==> k in theirs) && (k in theirs ==> after[k] == theirs[k])
            else !mine[k].Obj? ==> k in after && after[k] == mine[k]
  {
    hide RepairOf, WithLastApplied, Built, Prepared;
    var modified := WithImmutable(WithLastApplied(desired), found);
    DriverIsBuilt(desired);
    AnnotatedIsPrepared(desired);
    DriverIsPrepared(desired, found);
    SameNameAnnotated(desired, found);
    RepairMeans(desired, modified, found);
    SpecRepair(desired, modified, found);
    if k !in IMMUTABLE { OtherSpecField(desired, modified, found, k); }
  }

  /** The objects a spec wants are built as the operator builds them and stored as the API server
      stores them. */
  ghost predicate WellFormed(env: Setting, a: map<Key, Tree>, keys: set<Key>) {
    forall key | key in keys && Goals(env, key).Wanted? ::
      WellBuilt(key, env.manifest(key, env.spec)) && (key in a ==> WellFound(key, env.manifest(key, env.spec), a[key]))
  }

  /** On objects the API server stores, no merge fails, and a completed pass over any keys leaves
      nothing for the next pass to write. */
  lemma CompletedRests(env: Setting, a: map<Key, Tree>, b: map<Key, Tree>, keys: set<Key>)
    requires WellFormed(env, a, keys) && Phase(env, a, b, keys, true)
    ensures Mendable(env, a, keys) && Resting(env, b, keys)
  {
    hide Aim, GoalOf;
    forall key | key in keys && Goals(env, key).Wanted?
      ensures Aims(env, a, key).Repaired? && InShape(b, key, env.manifest(key, env.spec))
    {
      var desired := env.manifest(key, env.spec);
      AimInShape(key, desired, Lookup(a, key));
      assert Attained(env, a, b, key);
      assert b[key] == map[key := Aims(env, a, key).tree][key];
    }
    forall key | key in keys && Goals(env, key).Unwanted? ensures key !in b { assert Attained(env, a, b, key); }
  }

  lemma WellFormedMends(env: Setting, a: map<Key, Tree>, keys: set<Key>)
    requires WellFormed(env, a, keys)
    ensures Mendable(env, a, keys)
  {
    forall key | key in keys && Goals(env, key).Wanted? ensures Aims(env, a, key).Repaired? {
      AimInShape(key, env.manifest(key, env.spec), Lookup(a, key));
    }
  }
}
