// JSON trees and the merge-patch algebra used to repair drifted objects: the diff and
// merge of the JSON Merge Patch library (section 2 of RFC 7396) and the three-way patch
// built from them.

module Json {

  /** A JSON value. Text is a string leaf that holds the encoding of another value, which is
      what the last-applied annotation stores. */
  datatype Json =
    | Null
    | Bool(b: bool)
    | Num(n: int)
    | Str(s: string)
    | Text(doc: Json)
    | Arr(items: seq<Json>)
    | Obj(fields: map<string, Json>)

  type Tree = j: Json | j.Obj? witness Obj(map[])

  const Empty: Tree := Obj(map[])

  /** No null below this value, in objects or in arrays. */
  predicate NullFree(j: Json) {
    match j
    case Null => false
    case Obj(m) => forall k | k in m :: NullFree(m[k])
    case Arr(s) => forall x | x in s :: NullFree(x)
    case _ => true
  }

  // ------------------------------------------------------------------ library operations

  /** The merge patch that turns a into b: a null for every key only a has. */
  function Diff(a: Tree, b: Tree): Tree
    decreases b
  {
    Obj(map k | k in a.fields.Keys + b.fields.Keys && Differs(a, b, k) ::
          if k !in b.fields then Null
          else if k in a.fields && a.fields[k].Obj? && b.fields[k].Obj? then Diff(a.fields[k], b.fields[k])
          else b.fields[k])
  }

  predicate Differs(a: Tree, b: Tree, k: string)
    decreases b, 0
  {
    if k !in b.fields then k in a.fields
    else if k !in a.fields then true
    else if a.fields[k].Obj? && b.fields[k].Obj? then Diff(a.fields[k], b.fields[k]) != Empty
    else a.fields[k] != b.fields[k]
  }

  /** The deletions of a patch, or everything but its deletions. Submaps that a filter empties
      disappear; a submap that was empty to begin with counts as a value. */
  function Filter(p: Tree, deletions: bool): Tree
    decreases p, 0
  {
    Obj(map k | k in p.fields && Passes(p.fields[k], deletions) ::
          if p.fields[k].Obj? then Filter(p.fields[k], deletions) else p.fields[k])
  }

  predicate Passes(v: Json, deletions: bool)
    decreases v, 1
  {
    match v
    case Null => deletions
    case Obj(m) => if m == map[] then !deletions else Filter(v, deletions) != Empty
    case _ => !deletions
  }

  /** Drops the nulls of a value that lands where nothing was. */
  function Prune(j: Json): Json {
    match j
    case Obj(m) => Obj(map k | k in m && m[k] != Null :: Prune(m[k]))
    case Arr(s) => Arr(seq(|s|, i requires 0 <= i < |s| => Prune(s[i])))
    case _ => j
  }

  /** Applies a merge patch to an object. */
  function Apply(doc: Tree, patch: Tree): Tree
    decreases patch
  {
    Obj(map k | k in doc.fields.Keys + patch.fields.Keys && !(k in patch.fields && patch.fields[k] == Null) ::
          if k !in patch.fields then doc.fields[k]
          else if k !in doc.fields || !doc.fields[k].Obj? then Prune(patch.fields[k])
          else if patch.fields[k].Obj? then Apply(doc.fields[k], patch.fields[k])
          else patch.fields[k])
  }

  /** Whether two patches overlap with different values. */
  predicate Conflicts(l: Json, r: Json) {
    if l.Obj? then
      !r.Obj? || exists k :: k in l.fields && k in r.fields && Conflicts(l.fields[k], r.fields[k])
    else if l.Arr? then
      !r.Arr? || |l.items| != |r.items| || exists i :: 0 <= i < |l.items| && Conflicts(l.items[i], r.items[i])
    else l != r
  }

  // -------------------------------------------------------------------- three-way patch

  datatype Outcome = Merged(tree: Tree) | Conflict

  /** Additions and changes from current to modified, with the deletions from original to
      modified, applied to current. */
  function ThreeWay(original: Tree, modified: Tree, current: Tree): Outcome {
    var changes := Filter(Diff(current, modified), false);
    var deletions := Filter(Diff(original, modified), true);
    if Conflicts(changes, deletions) then Conflict
    else Merged(Apply(current, Apply(deletions, changes)))
  }

  /** What the three-way patch means, without patches: every leaf and array of modified wins,
      a key modified dropped since original is gone, and every other key of current stays. */
  function Meaning(original: Tree, modified: Tree, current: Tree): Tree
    decreases modified
  {
    Obj(map k | k in modified.fields.Keys + current.fields.Keys && (k in modified.fields || k !in original.fields) ::
          if k !in modified.fields then current.fields[k]
          else if modified.fields[k].Obj? && k in current.fields && current.fields[k].Obj? then
            Meaning(Sub(original, k), modified.fields[k], current.fields[k])
          else modified.fields[k])
  }

  /** The object below a key, empty when there is none. */
  function Sub(j: Tree, k: string): Tree {
    if k in j.fields && j.fields[k].Obj? then j.fields[k] else Empty
  }

  // ------------------------------------------------------------------------------ proofs

  lemma {:induction false} PruneNullFree(j: Json)
    requires NullFree(j)
    ensures Prune(j) == j
  {
    match j
    case Obj(m) => forall k | k in m ensures Prune(m[k]) == m[k] { PruneNullFree(m[k]); }
    case Arr(s) => forall i | 0 <= i < |s| ensures Prune(s[i]) == s[i] { PruneNullFree(s[i]); }
    case _ =>
  }

  /** Filtering a null-free tree either keeps it whole or leaves nothing. */
  lemma {:induction false} FilterNullFree(j: Tree)
    requires NullFree(j)
    ensures Filter(j, false) == j
    ensures Filter(j, true) == Empty
  {
    forall k | k in j.fields
      ensures Passes(j.fields[k], false) && !Passes(j.fields[k], true)
      ensures j.fields[k].Obj? ==> Filter(j.fields[k], false) == j.fields[k]
    {
      if j.fields[k].Obj? { FilterNullFree(j.fields[k]); }
    }
  }

  ghost function Changes(current: Tree, modified: Tree): Tree {
    Filter(Diff(current, modified), false)
  }

  ghost function Deletions(original: Tree, modified: Tree): Tree {
    Filter(Diff(original, modified), true)
  }

  /** One key of the additions and changes. */
  lemma {:induction false} ChangesAt(current: Tree, modified: Tree, k: string)
    requires NullFree(modified)
    ensures var both := k in modified.fields && modified.fields[k].Obj? && k in current.fields
                        && current.fields[k].Obj?;
            var c := Changes(current, modified).fields;
            if k !in modified.fields then k !in c
            else if both then
              var sub := Changes(current.fields[k], modified.fields[k]);
              (k in c <==> sub != Empty) && (k in c ==> c[k] == sub)
            else
              (k in c <==> k !in current.fields || current.fields[k] != modified.fields[k])
              && (k in c ==> c[k] == modified.fields[k])
  {
    var p := Diff(current, modified);
    assert k in p.fields <==> k in current.fields.Keys + modified.fields.Keys && Differs(current, modified, k);
    assert k in Filter(p, false).fields <==> k in p.fields && Passes(p.fields[k], false);
    if k in modified.fields && modified.fields[k].Obj? { FilterNullFree(modified.fields[k]); }
  }

  /** One key of the deletions. */
  lemma {:induction false} DeletionsAt(original: Tree, modified: Tree, k: string)
    requires NullFree(modified)
    ensures var d := Deletions(original, modified).fields;
            if k !in modified.fields then (k in d <==> k in original.fields) && (k in d ==> d[k] == Null)
            else if modified.fields[k].Obj? then
              var sub := Deletions(Sub(original, k), modified.fields[k]);
              (k in d <==> sub != Empty) && (k in d ==> d[k] == sub)
            else k !in d
  {
    var p := Diff(original, modified);
    assert k in p.fields <==> k in original.fields.Keys + modified.fields.Keys && Differs(original, modified, k);
    assert k in Filter(p, true).fields <==> k in p.fields && Passes(p.fields[k], true);
    if k in modified.fields && modified.fields[k].Obj? {
      var m := modified.fields[k];
      FilterNullFree(m);
      assert Diff(Empty, m) == m;
    }
  }

  lemma {:induction false} ChangesNullFree(current: Tree, modified: Tree)
    requires NullFree(modified)
    ensures NullFree(Changes(current, modified))
    decreases modified
  {
    var c := Changes(current, modified).fields;
    forall k | k in c ensures NullFree(c[k]) {
      ChangesAt(current, modified, k);
      if c[k] != modified.fields[k] { ChangesNullFree(current.fields[k], modified.fields[k]); }
    }
  }

  lemma ChangesFromNothing(m: Tree)
    requires NullFree(m)
    ensures Changes(Empty, m) == m
  {
    FilterNullFree(m);
    assert Diff(Empty, m) == m;
  }

  /** The two halves of a three-way patch never disagree, so the merge never fails. */
  lemma {:induction false} NeverConflicts(original: Tree, modified: Tree, current: Tree)
    requires NullFree(modified)
    ensures !Conflicts(Changes(current, modified), Deletions(original, modified))
    decreases modified
  {
    hide Changes, Deletions;
    var c, d := Changes(current, modified).fields, Deletions(original, modified).fields;
    forall k | k in c && k in d ensures !Conflicts(c[k], d[k]) {
      ChangesAt(current, modified, k);
      DeletionsAt(original, modified, k);
      var m := modified.fields[k];
      if k in current.fields && current.fields[k].Obj? {
        NeverConflicts(Sub(original, k), m, current.fields[k]);
      } else {
        ChangesFromNothing(m);
        NeverConflicts(Sub(original, k), m, Empty);
      }
    }
  }

  lemma {:induction false} ApplyNothing(doc: Tree, patch: Tree)
    requires NullFree(patch)
    ensures Apply(doc, Empty) == doc
    ensures Apply(Empty, patch) == patch
  {
    PruneNullFree(patch);
    assert Prune(patch).fields == Apply(Empty, patch).fields;
  }

  /** Deletions overlaid by the whole of modified prune back to modified. */
  lemma {:induction false} DeletionsPrune(original: Tree, modified: Tree)
    requires NullFree(modified)
    ensures Prune(Apply(Deletions(original, modified), modified)) == modified
    decreases modified
  {
    var a := Apply(Deletions(original, modified), modified);
    forall k | k in modified.fields
      ensures k in a.fields && a.fields[k] != Null && Prune(a.fields[k]) == modified.fields[k]
    {
      DeletionsAt(original, modified, k);
      PruneNullFree(modified.fields[k]);
      if modified.fields[k].Obj? { DeletionsPrune(Sub(original, k), modified.fields[k]); }
    }
    forall k | k in a.fields && k !in modified.fields ensures a.fields[k] == Null {
      DeletionsAt(original, modified, k);
    }
    assert Prune(a).fields == modified.fields;
  }

  lemma ApplyAt(doc: Tree, patch: Tree, k: string)
    ensures var r := Apply(doc, patch).fields;
            && (k in r <==> k in doc.fields.Keys + patch.fields.Keys && !(k in patch.fields && patch.fields[k] == Null))
            && (k in r ==> r[k] == if k !in patch.fields then doc.fields[k]
                                   else if k !in doc.fields || !doc.fields[k].Obj? then Prune(patch.fields[k])
                                   else if patch.fields[k].Obj? then Apply(doc.fields[k], patch.fields[k])
                                   else patch.fields[k])
  {
  }

  /** One key of the patched object. */
  lemma {:induction false} PatchedAt(original: Tree, modified: Tree, current: Tree, k: string)
    requires NullFree(modified)
    ensures var r := Apply(current, Apply(Deletions(original, modified), Changes(current, modified))).fields;
            if k !in modified.fields then
              (k in r <==> k in current.fields && k !in original.fields) && (k in r ==> r[k] == current.fields[k])
            else if modified.fields[k].Obj? && k in current.fields && current.fields[k].Obj? then
              k in r && r[k] == Apply(current.fields[k],
                                      Apply(Deletions(Sub(original, k), modified.fields[k]),
                                            Changes(current.fields[k], modified.fields[k])))
            else k in r && r[k] == modified.fields[k]
    decreases modified
  {
    hide Apply, Changes, Deletions, Prune;
    ChangesAt(current, modified, k);
    DeletionsAt(original, modified, k);
    ApplyAt(Deletions(original, modified), Changes(current, modified), k);
    ApplyAt(current, Apply(Deletions(original, modified), Changes(current, modified)), k);
    if k in modified.fields {
      var m := modified.fields[k];
      PruneNullFree(m);
      if m.Obj? {
        DeletionsPrune(Sub(original, k), m);
        if k in current.fields && current.fields[k].Obj? {
          var c, d := Changes(current.fields[k], m), Deletions(Sub(original, k), m);
          ChangesNullFree(current.fields[k], m);
          PruneNullFree(c);
          ApplyNothing(d, c);
          ApplyNothing(current.fields[k], c);
        }
      }
    }
  }

  /** The three-way patch does exactly what its meaning says, for every original and current. */
  lemma {:induction false} ThreeWayMeans(original: Tree, modified: Tree, current: Tree)
    requires NullFree(modified)
    ensures ThreeWay(original, modified, current) == Merged(Meaning(original, modified, current))
    decreases modified
  {
    NeverConflicts(original, modified, current);
    var r := Apply(current, Apply(Deletions(original, modified), Changes(current, modified)));
    var w := Meaning(original, modified, current);
    forall k
      ensures k in r.fields <==> k in w.fields
      ensures k in r.fields ==> r.fields[k] == w.fields[k]
    {
      PatchedAt(original, modified, current, k);
      if k in modified.fields && modified.fields[k].Obj? && k in current.fields && current.fields[k].Obj? {
        ThreeWayMeans(Sub(original, k), modified.fields[k], current.fields[k]);
      }
    }
    assert r.fields == w.fields;
  }

  // --------------------------------------------------------------- nulls in what is desired

  /** A tree without its nulls, and without objects that hold nothing else. */
  function Bare(t: Tree): Tree {
    Filter(t, false)
  }

  lemma {:induction false} DiffItself(t: Tree)
    ensures Diff(t, t) == Empty
  {
    forall k | k in t.fields && t.fields[k].Obj? ensures Diff(t.fields[k], t.fields[k]) == Empty {
      DiffItself(t.fields[k]);
    }
    assert forall k | k in t.fields :: !Differs(t, t, k);
    assert Diff(t, t).fields == map[];
  }

  /** Nulls in what is desired drop out of the additions and changes: whatever is found at their
      places stays. */
  lemma {:induction false} ChangesOfBare(current: Tree, modified: Tree)
    requires NullFree(Bare(modified))
    ensures Changes(current, modified) == Changes(current, Bare(modified))
    decreases modified
  {
    forall k
      ensures k in Changes(current, modified).fields <==> k in Changes(current, Bare(modified)).fields
      ensures k in Changes(current, modified).fields ==>
                Changes(current, modified).fields[k] == Changes(current, Bare(modified)).fields[k]
    {
      ChangesOfBareAt(current, modified, k);
    }
    assert Changes(current, modified).fields == Changes(current, Bare(modified)).fields;
  }

  lemma {:induction false} ChangesOfBareAt(current: Tree, modified: Tree, k: string)
    requires NullFree(Bare(modified))
    ensures k in Changes(current, modified).fields <==> k in Changes(current, Bare(modified)).fields
    ensures k in Changes(current, modified).fields ==>
              Changes(current, modified).fields[k] == Changes(current, Bare(modified)).fields[k]
    decreases modified, 0
  {
    var p, bare := Diff(current, modified), Bare(modified);
    assert k in p.fields <==> k in current.fields.Keys + modified.fields.Keys && Differs(current, modified, k);
    assert k in Filter(p, false).fields <==> k in p.fields && Passes(p.fields[k], false);
    assert k in bare.fields <==> k in modified.fields && Passes(modified.fields[k], false);
    ChangesAt(current, bare, k);
    if k in modified.fields && modified.fields[k].Obj? {
      var m := modified.fields[k];
      if m != Empty && k in bare.fields {
        assert bare.fields[k] == Bare(m);
        FilterNullFree(Bare(m));
      }
      if k in current.fields && current.fields[k].Obj? {
        if k in bare.fields {
          ChangesOfBare(current.fields[k], m);
        } else {
          assert Bare(m) == Empty;
          ChangesOfBare(current.fields[k], m);
          NoChanges(current.fields[k]);
        }
      }
    }
  }

  lemma NoChanges(current: Tree)
    ensures Changes(current, Empty) == Empty
  {
    forall k ensures k !in Changes(current, Empty).fields { ChangesAt(current, Empty, k); }
    assert Changes(current, Empty).fields == map[];
  }

  /** modified has all of original as it is, objects possibly extended, and otherwise no nulls. */
  ghost predicate Extends(modified: Tree, original: Tree)
    decreases modified
  {
    && original.fields.Keys <= modified.fields.Keys
    && forall k | k in modified.fields ::
         if k in original.fields && original.fields[k].Obj? && modified.fields[k].Obj? then
           original.fields[k] == modified.fields[k] || Extends(modified.fields[k], original.fields[k])
         else (k in original.fields && original.fields[k] == modified.fields[k]) || NullFree(modified.fields[k])
  }

  lemma {:induction false} NoDeletions(original: Tree, modified: Tree)
    requires Extends(modified, original)
    ensures Deletions(original, modified) == Empty
    decreases modified
  {
    var p := Diff(original, modified);
    forall k | k in p.fields ensures !Passes(p.fields[k], true) {
      assert k in modified.fields && Differs(original, modified, k);
      var m := modified.fields[k];
      if k in original.fields && original.fields[k].Obj? && m.Obj? {
        DiffItself(m);
        NoDeletions(original.fields[k], m);
      } else if m.Obj? {
        FilterNullFree(m);
      }
    }
    assert Deletions(original, modified).fields == map[];
  }

  lemma NothingToDelete(modified: Tree)
    requires NullFree(modified)
    ensures Deletions(Empty, modified) == Empty
  {
    assert Diff(Empty, modified) == modified;
    FilterNullFree(modified);
  }

  /** With nothing to delete, the merge of a desired object with nulls is the merge of the object
      without them. */
  lemma ThreeWayOfBare(original: Tree, modified: Tree, current: Tree)
    requires Extends(modified, original) && NullFree(Bare(modified))
    ensures ThreeWay(original, modified, current) == Merged(Meaning(Empty, Bare(modified), current))
    ensures Apply(Deletions(original, modified), Changes(current, modified))
         == Apply(Deletions(Empty, Bare(modified)), Changes(current, Bare(modified)))
  {
    hide Filter, Diff, Conflicts, Meaning, Apply, Extends;
    var bare := Bare(modified);
    NoDeletions(original, modified);
    ChangesOfBare(current, modified);
    NothingToDelete(bare);
    ThreeWayMeans(Empty, bare, current);
    NeverConflicts(Empty, bare, current);
  }
}
