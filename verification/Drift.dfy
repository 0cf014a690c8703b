// Drift repair of one managed object (util.go): labels and annotations are merged into the
// found object, then the three-way patch between the last-applied annotation, the desired
// object and the found one is applied.

module Drift {
  import opened Json

  const LAST_APPLIED := "hostpathprovisioner.kubevirt.io/lastAppliedConfiguration"

  datatype Repair = Repaired(tree: Tree) | NoAnnotation | MergeConflict | NameChanged

  // --------------------------------------------------------------------- metadata helpers

  function Set(t: Tree, k: string, v: Json): (r: Tree) {
    Obj(t.fields[k := v])
  }

  function Meta(t: Tree): Tree {
    Sub(t, "metadata")
  }

  function Section(t: Tree, section: string): Tree {
    Sub(Meta(t), section)
  }

  function PutMeta(t: Tree, section: string, k: string, v: Json): Tree {
    Set(t, "metadata", Set(Meta(t), section, Set(Section(t, section), k, v)))
  }

  /** The encoding of the object itself, stored in its own annotations. */
  function WithLastApplied(t: Tree): Tree {
    PutMeta(t, "annotations", LAST_APPLIED, Text(t))
  }

  /** dest with every label (or annotation) of src written over its own. */
  function MergedSection(section: string, src: Tree, dest: Tree): Tree {
    if Section(src, section) == Empty then dest
    else Set(dest, "metadata", Set(Meta(dest), section,
                                   Obj(Section(dest, section).fields + Section(src, section).fields)))
  }

  function MergedMeta(src: Tree, dest: Tree): Tree {
    MergedSection("annotations", src, MergedSection("labels", src, dest))
  }

  /** desired with the creation time of current, or without one if current has none. */
  function Stamped(desired: Tree, current: Tree): Tree {
    var at := Meta(current).fields;
    if "creationTimestamp" in at then Set(desired, "metadata",
                                          Set(Meta(desired), "creationTimestamp", at["creationTimestamp"]))
    else Set(desired, "metadata", Obj(Meta(desired).fields - {"creationTimestamp"}))
  }

  function Patch(original: Tree, modified: Tree, current: Tree): Tree {
    Apply(Filter(Diff(original, modified), true), Filter(Diff(current, modified), false))
  }

  /** mergeObject: the original comes from the annotation on current. */
  function MergeObject(desired: Tree, current: Tree): Repair {
    var notes := Section(current, "annotations").fields;
    if LAST_APPLIED !in notes || !notes[LAST_APPLIED].Text? || !notes[LAST_APPLIED].doc.Obj? then NoAnnotation
    else
      var original, modified := notes[LAST_APPLIED].doc, Stamped(desired, current);
      match ThreeWay(original, modified, current)
      case Conflict => MergeConflict
      case Merged(tree) => if "name" in Meta(Patch(original, modified, current)).fields then NameChanged
      else Repaired(tree)
  }

  /** What a reconcile writes back for a found object, given the desired one. */
  function RepairOf(desired: Tree, found: Tree): Repair {
    MergeObject(desired, MergedMeta(desired, found))
  }

  // ------------------------------------------------------------------- in-place operations

  class KubeObject {
    var tree: Tree

    constructor (tree: Tree)
      ensures this.tree == tree
    {
      this.tree := tree;
    }
  }

  lemma SetTwice(t: Tree, k: string, v: Json, w: Json)
    ensures Set(Set(t, k, v), k, w) == Set(t, k, w)
  {
    assert t.fields[k := v][k := w] == t.fields[k := w];
  }

  lemma MergedWithSelf(section: string, t: Tree)
    ensures MergedSection(section, t, t) == t
  {
    var own := Section(t, section).fields;
    assert own + own == own;
    if own != map[] {
      assert Meta(t).fields[section := Obj(own)] == Meta(t).fields;
      assert t.fields["metadata" := Meta(t)] == t.fields;
    }
  }

  method SetLastAppliedConfiguration(obj: KubeObject)
    modifies obj
    ensures obj.tree == WithLastApplied(old(obj.tree))
  {
    obj.tree := PutMeta(obj.tree, "annotations", LAST_APPLIED, Text(obj.tree));
  }

  /** was with some entries written into a section. */
  ghost function Written(section: string, was: Tree, entries: map<string, Json>): Tree {
    if entries == map[] then was else Set(was, "metadata",
                                          Set(Meta(was), section, Obj(Section(was, section).fields + entries)))
  }

  lemma WriteOne(section: string, was: Tree, entries: map<string, Json>, k: string, v: Json)
    ensures PutMeta(Written(section, was, entries), section, k, v) == Written(section, was, entries[k := v])
  {
    var own := Section(was, section).fields;
    var more := Obj(own + entries[k := v]);
    assert (own + entries)[k := v] == own + entries[k := v];
    assert k in entries[k := v];
    if entries == map[] {
      assert own + entries == own;
    } else {
      SetTwice(Meta(was), section, Obj(own + entries), more);
      SetTwice(was, "metadata", Set(Meta(was), section, Obj(own + entries)), Set(Meta(was), section, more));
    }
  }

  method MergeSection(section: string, src: KubeObject, dest: KubeObject)
    modifies dest
    ensures dest.tree == MergedSection(section, old(src.tree), old(dest.tree))
  {
    hide PutMeta;
    var from := Section(src.tree, section).fields;
    var todo := from.Keys;
    ghost var was := dest.tree;
    assert from - todo == map[];
    while todo != {}
      invariant todo <= from.Keys && dest.tree == Written(section, was, from - todo)
    {
      var k :| k in todo;
      WriteOne(section, was, from - todo, k, from[k]);
      assert from - (todo - {k}) == (from - todo)[k := from[k]];
      dest.tree := PutMeta(dest.tree, section, k, from[k]);
      todo := todo - {k};
    }
    assert from - {} == from;
  }

  method MergeLabelsAndAnnotations(src: KubeObject, dest: KubeObject)
    modifies dest
    ensures src != dest ==> dest.tree == MergedMeta(old(src.tree), old(dest.tree))
    ensures src == dest ==> dest.tree == old(dest.tree)
  {
    MergedWithSelf("labels", dest.tree);
    MergedWithSelf("annotations", dest.tree);
    MergeSection("labels", src, dest);
    MergeSection("annotations", src, dest);
  }

  /** The merge itself; it stamps desired with the creation time of current on the way. */
  method Merge(desired: KubeObject, current: KubeObject) returns (r: Repair)
    modifies desired
    ensures r == MergeObject(old(desired.tree), old(current.tree))
    ensures desired.tree == old(desired.tree) || desired.tree == Stamped(old(desired.tree), old(current.tree))
  {
    var notes := Section(current.tree, "annotations").fields;
    if LAST_APPLIED !in notes || !notes[LAST_APPLIED].Text? || !notes[LAST_APPLIED].doc.Obj? {
      return NoAnnotation;
    }
    var original, was := notes[LAST_APPLIED].doc, current.tree;
    desired.tree := Stamped(desired.tree, was);
    match ThreeWay(original, desired.tree, was) {
      case Conflict => r := MergeConflict;
      case Merged(tree) =>
        r := if "name" in Meta(Patch(original, desired.tree, was)).fields then NameChanged else Repaired(tree);
    }
  }

  // -------------------------------------------------------------------------- CSI drivers

  const IMMUTABLE := {"attachRequired", "podInfoOnMount", "volumeLifecycleModes", "storageCapacity"}

  /** One spec field taken over from current, present or absent as it is there. */
  function Taken(mine: map<string, Json>, theirs: map<string, Json>, k: string): map<string, Json> {
    if k in theirs then mine[k := theirs[k]] else mine - {k}
  }

  /** desired with the immutable spec fields of current. */
  function WithImmutable(desired: Tree, current: Tree): Tree {
    var theirs := Sub(current, "spec").fields;
    var spec := Taken(Taken(Sub(desired, "spec").fields, theirs, "attachRequired"), theirs, "podInfoOnMount");
    Set(desired, "spec", Obj(Taken(Taken(spec, theirs, "volumeLifecycleModes"), theirs, "storageCapacity")))
  }

  method CopyImmutableFields(desired: KubeObject, current: KubeObject)
    modifies desired
    ensures desired.tree == WithImmutable(old(desired.tree), old(current.tree))
  {
    var theirs := Sub(current.tree, "spec").fields;
    var spec := Sub(desired.tree, "spec").fields;
    spec := Taken(spec, theirs, "attachRequired");
    spec := Taken(spec, theirs, "podInfoOnMount");
    spec := Taken(spec, theirs, "volumeLifecycleModes");
    spec := Taken(spec, theirs, "storageCapacity");
    desired.tree := Set(desired.tree, "spec", Obj(spec));
  }
}
