// What drift repair achieves: it never fails, it is an overlay of the desired object on the
// found one, it is idempotent, and what it leaves alone.

module DriftProofs {
  import opened Json
  import opened Drift

  // ------------------------------------------------------------------ overlays and paths

  /** modified laid over current: modified decides wherever it has a leaf or an array. */
  ghost function Overlay(current: Tree, modified: Tree): Tree {
    Meaning(Empty, modified, current)
  }

  datatype Spot = Nothing | Value(v: Json)

  ghost function At(j: Json, path: seq<string>): Spot {
    if path == [] then Value(j)
    else if j.Obj? && path[0] in j.fields then At(j.fields[path[0]], path[1..])
    else Nothing
  }

  /** modified has objects down the path and then no key: it says nothing about that place. */
  ghost predicate Silent(modified: Tree, path: seq<string>) {
    path != [] &&
    (path[0] !in modified.fields || (modified.fields[path[0]].Obj? && Silent(modified.fields[path[0]], path[1..])))
  }

  /** Every key of inner is a key of outer, all the way down. */
  ghost predicate Covers(outer: Tree, inner: Tree)
    decreases inner
  {
    forall k | k in inner.fields ::
      k in outer.fields &&
      (inner.fields[k].Obj? && outer.fields[k].Obj? ==> Covers(outer.fields[k], inner.fields[k]))
  }

  lemma {:induction false} CoversItself(t: Tree)
    ensures Covers(t, t)
  {
    forall k | k in t.fields && t.fields[k].Obj? ensures Covers(t.fields[k], t.fields[k]) { CoversItself(t.fields[k]); }
  }

  /** Every leaf and array of modified wins. */
  lemma {:induction false} OverlayWins(current: Tree, modified: Tree, path: seq<string>)
    requires At(modified, path).Value? && !At(modified, path).v.Obj?
    ensures At(Overlay(current, modified), path) == At(modified, path)
    decreases |path|
  {
    var k := path[0];
    if modified.fields[k].Obj? && k in current.fields && current.fields[k].Obj? {
      OverlayWins(current.fields[k], modified.fields[k], path[1..]);
    }
  }

  /** Every place modified says nothing about keeps what current has there. */
  lemma {:induction false} OverlaySpares(current: Tree, modified: Tree, path: seq<string>)
    requires Silent(modified, path)
    ensures At(Overlay(current, modified), path) == At(current, path)
    decreases |path|
  {
    var k := path[0];
    if k in modified.fields {
      if k in current.fields && current.fields[k].Obj? {
        OverlaySpares(current.fields[k], modified.fields[k], path[1..]);
      } else {
        SilentMissing(modified.fields[k], path[1..]);
      }
    }
  }

  lemma {:induction false} SilentMissing(modified: Tree, path: seq<string>)
    requires Silent(modified, path)
    ensures At(modified, path) == Nothing
  {
    if path[0] in modified.fields { SilentMissing(modified.fields[path[0]], path[1..]); }
  }

  lemma {:induction false} MeaningOverItself(original: Tree, modified: Tree)
    ensures Meaning(original, modified, modified) == modified
    decreases modified
  {
    forall k | k in modified.fields && modified.fields[k].Obj?
      ensures Meaning(Sub(original, k), modified.fields[k], modified.fields[k]) == modified.fields[k]
    {
      MeaningOverItself(Sub(original, k), modified.fields[k]);
    }
    assert Meaning(original, modified, modified).fields == modified.fields;
  }

  lemma {:induction false} MeaningIdempotent(original: Tree, modified: Tree, current: Tree)
    ensures Meaning(original, modified, Meaning(original, modified, current)) == Meaning(original, modified, current)
    decreases modified
  {
    var once := Meaning(original, modified, current);
    forall k | k in modified.fields && modified.fields[k].Obj?
      ensures Meaning(Sub(original, k), modified.fields[k], once.fields[k]) == once.fields[k]
    {
      if k in current.fields && current.fields[k].Obj? {
        MeaningIdempotent(Sub(original, k), modified.fields[k], current.fields[k]);
      } else {
        MeaningOverItself(Sub(original, k), modified.fields[k]);
      }
    }
    assert Meaning(original, modified, once).fields == once.fields;
  }

  /** When modified covers the original there is nothing to delete. */
  lemma {:induction false} MeaningIsOverlay(original: Tree, modified: Tree, current: Tree)
    requires Covers(modified, original)
    ensures Meaning(original, modified, current) == Overlay(current, modified)
    decreases modified
  {
    forall k | k in modified.fields && modified.fields[k].Obj? && k in current.fields && current.fields[k].Obj?
      ensures Meaning(Sub(original, k), modified.fields[k], current.fields[k])
           == Meaning(Sub(Empty, k), modified.fields[k], current.fields[k])
    {
      MeaningIsOverlay(Sub(original, k), modified.fields[k], current.fields[k]);
    }
    assert Meaning(original, modified, current).fields == Overlay(current, modified).fields;
  }

  // ------------------------------------------------------------------- one repair, in full

  /** An object as the API server returns it. */
  ghost predicate Stored(found: Tree) {
    && "metadata" in found.fields && found.fields["metadata"].Obj?
    && ("creationTimestamp" in Meta(found).fields ==> NullFree(Meta(found).fields["creationTimestamp"]))
  }

  /** An object ready to be compared: named, null-free, and annotated with the original. */
  ghost predicate Prepared(modified: Tree, original: Tree) {
    && NullFree(modified)
    && "name" in Meta(modified).fields && Meta(modified).fields["name"].Str?
    && Flat(Section(modified, "labels")) && Flat(Section(modified, "annotations"))
    && LAST_APPLIED in Section(modified, "annotations").fields
    && Section(modified, "annotations").fields[LAST_APPLIED] == Text(original)
  }

  /** Labels and annotations map strings to strings. */
  ghost predicate Flat(section: Tree) {
    forall k | k in section.fields :: !section.fields[k].Obj?
  }

  ghost predicate SameName(a: Tree, b: Tree) {
    "name" in Meta(a).fields && "name" in Meta(b).fields && Meta(a).fields["name"] == Meta(b).fields["name"]
  }

  /** Replacing one object below current by another that means the same changes nothing. */
  lemma {:induction false} MeaningAfterSet(original: Tree, modified: Tree, current: Tree, k: string, v: Tree)
    requires k in modified.fields && modified.fields[k].Obj?
    requires Meaning(Sub(original, k), modified.fields[k], v)
          == if k in current.fields && current.fields[k].Obj?
             then Meaning(Sub(original, k), modified.fields[k], current.fields[k])
             else modified.fields[k]
    ensures Meaning(original, modified, Set(current, k, v)) == Meaning(original, modified, current)
  {
    assert Meaning(original, modified, Set(current, k, v)).fields == Meaning(original, modified, current).fields;
  }

  /** Merging labels or annotations first changes nothing about the outcome. */
  lemma {:induction false} SectionAbsorbed(section: string, original: Tree, modified: Tree, found: Tree)
    requires "metadata" in found.fields && found.fields["metadata"].Obj? && Flat(Section(modified, section))
    ensures Meaning(original, modified, MergedSection(section, modified, found)) == Meaning(original, modified, found)
  {
    var s := Section(modified, section);
    if s != Empty {
      var o, m, f := Sub(original, "metadata"), Meta(modified), Meta(found);
      var mine := Section(found, section);
      var both := Obj(mine.fields + s.fields);
      SectionOverlay(Sub(o, section), s, mine);
      if mine == Empty {
        assert both == s;
        MeaningOverItself(Sub(o, section), s);
      }
      MeaningAfterSet(o, m, f, section, both);
      MeaningAfterSet(original, modified, found, "metadata", Set(f, section, both));
    }
  }

  /** Merging a section leaves the rest of the metadata alone. */
  lemma SectionKeeps(section: string, modified: Tree, found: Tree, k: string)
    requires "metadata" in found.fields && found.fields["metadata"].Obj? && k != section
    ensures var g := MergedSection(section, modified, found);
            "metadata" in g.fields && g.fields["metadata"].Obj?
            && (k in Meta(g).fields <==> k in Meta(found).fields)
            && (k in Meta(g).fields ==> Meta(g).fields[k] == Meta(found).fields[k])
  {
  }

  /** Writing modified's own keys first does not change what a merge means. */
  lemma {:induction false} SectionOverlay(original: Tree, s: Tree, mine: Tree)
    requires Flat(s)
    ensures Meaning(original, s, Obj(mine.fields + s.fields)) == Meaning(original, s, mine)
  {
    assert Meaning(original, s, Obj(mine.fields + s.fields)).fields == Meaning(original, s, mine).fields;
  }

  /** The patch below a key where both sides have an object. */
  lemma {:induction false} PatchBelow(original: Tree, modified: Tree, current: Tree, k: string)
    requires NullFree(modified) && k in modified.fields && modified.fields[k].Obj? && k in current.fields
             && current.fields[k].Obj?
    ensures Sub(Patch(original, modified, current), k)
         == Apply(Deletions(Sub(original, k), modified.fields[k]), Changes(current.fields[k], modified.fields[k]))
  {
    var m, c := modified.fields[k], current.fields[k];
    var del, add := Deletions(Sub(original, k), m), Changes(c, m);
    ChangesAt(current, modified, k);
    DeletionsAt(original, modified, k);
    ChangesNullFree(c, m);
    ApplyNothing(del, add);
    PruneNullFree(add);
  }

  lemma {:induction false} NameUntouched(original: Tree, modified: Tree, current: Tree)
    requires NullFree(modified) && SameName(modified, current) && Meta(modified).fields["name"].Str?
    ensures "name" !in Meta(Patch(original, modified, current)).fields
  {
    PatchBelow(original, modified, current, "metadata");
    ChangesAt(Meta(current), Meta(modified), "name");
    DeletionsAt(Sub(original, "metadata"), Meta(modified), "name");
  }

  /** The metadata that labels, annotations and the creation time leave to the merge. */
  lemma {:induction false} CurrentMetadata(modified: Tree, found: Tree)
    requires Stored(found) && SameName(modified, found)
    ensures Stored(MergedMeta(modified, found)) && SameName(modified, MergedMeta(modified, found))
    ensures Stamped(modified, MergedMeta(modified, found)) == Stamped(modified, found)
    ensures Section(modified, "annotations") != Empty ==>
              && Section(modified, "annotations").fields.Keys
                 <= Section(MergedMeta(modified, found), "annotations").fields.Keys
              && forall k | k in Section(modified, "annotations").fields ::
                   Section(MergedMeta(modified, found), "annotations").fields[k]
                   == Section(modified, "annotations").fields[k]
  {
    var labelled := MergedSection("labels", modified, found);
    SectionKeeps("labels", modified, found, "creationTimestamp");
    SectionKeeps("labels", modified, found, "name");
    SectionKeeps("annotations", modified, labelled, "creationTimestamp");
    SectionKeeps("annotations", modified, labelled, "name");
  }

  lemma {:induction false} StampedKeeps(modified: Tree, found: Tree)
    requires Stored(found) && NullFree(modified) && SameName(modified, found)
    ensures NullFree(Stamped(modified, found))
    ensures SameName(Stamped(modified, found), found)
            && Meta(Stamped(modified, found)).fields["name"] == Meta(modified).fields["name"]
    ensures Section(Stamped(modified, found), "labels") == Section(modified, "labels")
    ensures Section(Stamped(modified, found), "annotations") == Section(modified, "annotations")
  {
    var m := Meta(Stamped(modified, found)).fields;
    assert forall k | k in m && k != "creationTimestamp" ::
        k in Meta(modified).fields && m[k] == Meta(modified).fields[k];
    assert NullFree(Meta(modified));
    assert NullFree(Obj(m));
  }

  /** Repair never fails, and its result is exactly the meaning of the three-way merge. */
  lemma {:induction false} RepairMeans(original: Tree, modified: Tree, found: Tree)
    requires Prepared(modified, original) && Stored(found) && SameName(modified, found)
    ensures RepairOf(modified, found) == Repaired(Meaning(original, Stamped(modified, found), found))
  {
    var stamped := Stamped(modified, found);
    var labelled := MergedSection("labels", modified, found);
    var current := MergedMeta(modified, found);
    StampedKeeps(modified, found);
    CurrentMetadata(modified, found);
    SectionKeeps("labels", modified, found, "name");
    assert MergedSection("labels", stamped, found) == labelled;
    assert MergedSection("annotations", stamped, labelled) == current;
    SectionAbsorbed("labels", original, stamped, found);
    SectionAbsorbed("annotations", original, stamped, labelled);
    ThreeWayMeans(original, stamped, current);
    NameUntouched(original, stamped, current);
  }

  /** Repairing an object twice is repairing it once: the second run has nothing to write. */
  lemma {:induction false} RepairIdempotent(original: Tree, modified: Tree, found: Tree)
    requires Prepared(modified, original) && Stored(found) && SameName(modified, found)
    ensures var once := RepairOf(modified, found);
            once.Repaired? && Stored(once.tree) && SameName(modified, once.tree)
            && RepairOf(modified, once.tree) == once
  {
    var stamped := Stamped(modified, found);
    var once := Meaning(original, stamped, found);
    RepairMeans(original, modified, found);
    StampedKeeps(modified, found);
    RepairedMetadata(original, modified, found);
    RepairMeans(original, modified, once);
    MeaningIdempotent(original, stamped, found);
  }

  lemma {:induction false} RepairedMetadata(original: Tree, modified: Tree, found: Tree)
    requires NullFree(modified) && Stored(found) && SameName(modified, found) && Meta(modified).fields["name"].Str?
    ensures var once := Meaning(original, Stamped(modified, found), found);
            Stored(once) && SameName(modified, once) && Stamped(modified, once) == Stamped(modified, found)
  {
    var stamped := Stamped(modified, found);
    StampedKeeps(modified, found);
    var o, m, f := Sub(original, "metadata"), Meta(stamped), Meta(found);
    var once := Meaning(original, stamped, found);
    assert Meta(once) == Meaning(o, m, f);
    assert "name" in Meta(once).fields && Meta(once).fields["name"] == m.fields["name"];
    if "creationTimestamp" in f.fields {
      assert m.fields["creationTimestamp"] == f.fields["creationTimestamp"];
      var t := f.fields["creationTimestamp"];
      if t.Obj? { MeaningOverItself(Sub(o, "creationTimestamp"), t); }
    } else {
      assert "creationTimestamp" !in m.fields && "creationTimestamp" !in Meta(once).fields;
    }
  }

  // ----------------------------------------------------------------- repair as it is called

  /** An object as the operator builds it, before annotating it. Fields may be null, which is how
      unset optional fields are encoded; arrays hold no nulls. */
  ghost predicate Built(desired: Tree) {
    && NullFree(Bare(desired))
    && "name" in Meta(desired).fields && Meta(desired).fields["name"].Str?
    && "creationTimestamp" !in Meta(desired).fields
    && StringsOnly(desired, "labels") && StringsOnly(desired, "annotations")
  }

  ghost predicate StringsOnly(desired: Tree, section: string) {
    && Flat(Section(desired, section)) && NullFree(Section(desired, section))
    && (section in Meta(desired).fields ==> Meta(desired).fields[section].Obj?)
  }

  /** What a repair lays over the found object: the annotated desired object without its nulls,
      with the creation time of the found one. */
  ghost function Laid(desired: Tree, found: Tree): Tree {
    Stamped(Bare(WithLastApplied(desired)), found)
  }

  lemma {:induction false} AnnotatedIsPrepared(desired: Tree)
    requires Built(desired) && NullFree(desired)
    ensures Prepared(WithLastApplied(desired), desired)
    ensures Section(WithLastApplied(desired), "labels") == Section(desired, "labels")
    ensures Meta(WithLastApplied(desired)).fields["name"] == Meta(desired).fields["name"]
  {
    var notes := Obj(Section(desired, "annotations").fields[LAST_APPLIED := Text(desired)]);
    assert NullFree(Meta(desired));
    assert NullFree(notes);
    assert NullFree(Set(Meta(desired), "annotations", notes));
  }

  /** Leaving out nulls keeps an object below a key, as long as something in it is no null. */
  lemma BareBelow(t: Tree, k: string, x: string)
    requires k in t.fields && t.fields[k].Obj? && x in t.fields[k].fields && Passes(t.fields[k].fields[x], false)
    ensures k in Bare(t).fields && Bare(t).fields[k] == Bare(t.fields[k]) && x in Bare(t.fields[k]).fields
  {
    BareAt(t.fields[k], x);
    assert Filter(t.fields[k], false) != Empty;
    BareAt(t, k);
  }

  lemma BareNullFree(t: Tree, k: string)
    requires k in t.fields && NullFree(t.fields[k])
    ensures k in Bare(t).fields && Bare(t).fields[k] == t.fields[k]
  {
    if t.fields[k].Obj? { FilterNullFree(t.fields[k]); }
    BareAt(t, k);
  }

  lemma BareAt(t: Tree, k: string)
    ensures k in Bare(t).fields <==> k in t.fields && Passes(t.fields[k], false)
    ensures k in Bare(t).fields ==> Bare(t).fields[k] == if t.fields[k].Obj? then Bare(t.fields[k]) else t.fields[k]
  {
  }

  /** The metadata of a built object has no nulls where the merge looks. */
  lemma BareMetadata(desired: Tree)
    requires Built(desired)
    ensures var t := WithLastApplied(desired);
            && "metadata" in t.fields && t.fields["metadata"].Obj? && "metadata" in Bare(t).fields
            && Meta(Bare(t)) == Bare(Meta(t))
            && "name" in Meta(t).fields && Meta(t).fields["name"] == Meta(desired).fields["name"]
            && "creationTimestamp" !in Meta(t).fields
            && SameName(t, Bare(t)) && SameName(t, desired)
            && "annotations" in Meta(t).fields
            && Section(t, "annotations") == Obj(Section(desired, "annotations").fields[LAST_APPLIED := Text(desired)])
            && Section(t, "labels") == Section(desired, "labels") && StringsOnly(t, "labels")
            && StringsOnly(t, "annotations")
            && Section(Bare(t), "labels") == Section(t, "labels")
            && Section(Bare(t), "annotations") == Section(t, "annotations")
            && StringsOnly(Bare(t), "labels") && StringsOnly(Bare(t), "annotations")
  {
    var t := WithLastApplied(desired);
    BareBelow(t, "metadata", "name");
    BareNullFree(Meta(t), "name");
    BareNullFree(Meta(t), "annotations");
    if "labels" in Meta(t).fields { BareNullFree(Meta(t), "labels"); } else { BareAt(Meta(t), "labels"); }
  }

  lemma BareIsPrepared(desired: Tree)
    requires Built(desired)
    ensures Prepared(Bare(WithLastApplied(desired)), desired)
  {
    var t := WithLastApplied(desired);
    BareMetadata(desired);
    forall k | k in Bare(t).fields ensures NullFree(Bare(t).fields[k]) {
      BareAt(t, k);
      BareAt(desired, k);
      if k == "metadata" {
        forall x | x in Bare(Meta(t)).fields ensures NullFree(Bare(Meta(t)).fields[x]) {
          BareAt(Meta(t), x);
          if x == "annotations" {
            BareNullFree(Meta(t), x);
          } else {
            BareBelow(desired, "metadata", "name");
            BareAt(Meta(desired), x);
            assert NullFree(Bare(desired).fields["metadata"]) && Meta(t).fields[x] == Meta(desired).fields[x];
            assert NullFree(Bare(Meta(desired)).fields[x]);
          }
        }
      }
    }
  }

  /** Stamping and leaving out nulls commute. */
  lemma BareOfStamped(t: Tree, found: Tree)
    requires "metadata" in t.fields && t.fields["metadata"].Obj? && "name" in Meta(t).fields
             && Meta(t).fields["name"].Str?
    requires "creationTimestamp" !in Meta(t).fields && Stored(found)
    ensures Bare(Stamped(t, found)) == Stamped(Bare(t), found)
  {
    var s := Stamped(t, found);
    BareBelow(t, "metadata", "name");
    BareBelow(s, "metadata", "name");
    forall x ensures x in Bare(Meta(s)).fields <==> x in Meta(Stamped(Bare(t), found)).fields
      ensures x in Bare(Meta(s)).fields ==> Bare(Meta(s)).fields[x] == Meta(Stamped(Bare(t), found)).fields[x]
    {
      BareAt(Meta(s), x);
      BareAt(Meta(t), x);
      if x == "creationTimestamp" && x in Meta(s).fields { BareNullFree(Meta(s), x); }
    }
    assert Bare(Meta(s)).fields == Meta(Stamped(Bare(t), found)).fields;
    forall k | k != "metadata" ensures k in Bare(s).fields <==> k in Bare(t).fields
      ensures k in Bare(s).fields && k in Bare(t).fields ==> Bare(s).fields[k] == Bare(t).fields[k]
    {
      BareAt(s, k);
      BareAt(t, k);
    }
    assert Bare(s).fields == Stamped(Bare(t), found).fields;
  }

  /** The stamped and annotated object extends what its annotation records. */
  lemma {:induction false} AnnotatedExtends(desired: Tree, found: Tree)
    requires Built(desired) && Stored(found)
    ensures Extends(Stamped(WithLastApplied(desired), found), desired)
  {
    var s := Stamped(WithLastApplied(desired), found);
    BareMetadata(desired);
    var notes, mine := Section(s, "annotations"), Section(desired, "annotations");
    assert Meta(s).fields["annotations"] == notes == Obj(mine.fields[LAST_APPLIED := Text(desired)]);
    assert Extends(notes, mine);
    assert Extends(Meta(s), Meta(desired)) by {
      forall x | x in Meta(s).fields && x != "annotations" && x != "creationTimestamp"
        ensures x in Meta(desired).fields && Meta(s).fields[x] == Meta(desired).fields[x] { }
      if "annotations" in Meta(desired).fields { assert Meta(desired).fields["annotations"] == mine; }
    }
    assert forall k | k in s.fields && k != "metadata" :: k in desired.fields && s.fields[k] == desired.fields[k];
  }

  /** Repair as called lays the annotated desired object over the found one, for every found object.
      Because the annotation is overwritten first, there is no original left to delete anything
      against; and a null in the desired object leaves what is found at its place. */
  lemma {:induction false} RepairIsOverlay(desired: Tree, found: Tree)
    requires Built(desired) && Stored(found) && SameName(desired, found)
    ensures RepairOf(WithLastApplied(desired), found) == Repaired(Overlay(found, Laid(desired, found)))
  {
    hide WithLastApplied, Built, Stamped, Bare, Meaning, Extends, Prepared, Flat, StringsOnly, ThreeWay;
    var modified := WithLastApplied(desired);
    var bare, s := Bare(modified), Stamped(modified, found);
    var labelled, current := MergedSection("labels", modified, found), MergedMeta(modified, found);
    BareMetadata(desired);
    BareIsPrepared(desired);
    PreparedMeans(bare, desired);
    BareOfStamped(modified, found);
    AnnotatedExtends(desired, found);
    StampedKeeps(bare, found);
    CurrentMetadata(modified, found);
    ThreeWayOfBare(desired, s, current);
    SameSections(bare, modified, found);
    AbsorbedSections(bare, found);
    NameUntouched(Empty, Stamped(bare, found), current);
  }

  lemma PreparedMeans(modified: Tree, original: Tree)
    requires Prepared(modified, original)
    ensures NullFree(modified) && "name" in Meta(modified).fields && Meta(modified).fields["name"].Str?
    ensures Flat(Section(modified, "labels")) && Flat(Section(modified, "annotations"))
  {
  }

  lemma SameSections(a: Tree, b: Tree, found: Tree)
    requires Section(a, "labels") == Section(b, "labels") && Section(a, "annotations") == Section(b, "annotations")
    ensures MergedMeta(a, found) == MergedMeta(b, found)
  {
  }

  /** Labels and annotations written first make no difference to the overlay. */
  lemma AbsorbedSections(bare: Tree, found: Tree)
    requires NullFree(bare) && Stored(found) && SameName(bare, found) && Flat(Section(bare, "labels"))
             && Flat(Section(bare, "annotations"))
    ensures Meaning(Empty, Stamped(bare, found), MergedMeta(bare, found)) == Meaning(Empty, Stamped(bare, found), found)
  {
    var s, labelled := Stamped(bare, found), MergedSection("labels", bare, found);
    StampedKeeps(bare, found);
    SectionKeeps("labels", bare, found, "name");
    assert MergedSection("labels", s, found) == labelled;
    assert MergedSection("annotations", s, labelled) == MergedMeta(bare, found);
    SectionAbsorbed("labels", Empty, s, found);
    SectionAbsorbed("annotations", Empty, s, labelled);
  }

  /** What an object has without its nulls adds nothing to it. */
  lemma {:induction false} OverlayOfBare(t: Tree)
    ensures Overlay(t, Bare(t)) == t
    decreases t
  {
    forall k ensures k in Overlay(t, Bare(t)).fields <==> k in t.fields
      ensures k in t.fields ==> Overlay(t, Bare(t)).fields[k] == t.fields[k]
    {
      BareAt(t, k);
      if k in t.fields && t.fields[k].Obj? { OverlayOfBare(t.fields[k]); }
    }
    assert Overlay(t, Bare(t)).fields == t.fields;
  }

  /** A freshly created object, nulls or not, needs no repair. */
  lemma {:induction false} CreatedAtRest(desired: Tree)
    requires Built(desired)
    ensures var made := WithLastApplied(desired);
            Stored(made) && SameName(desired, made) && RepairOf(made, made) == Repaired(made)
  {
    hide RepairOf;
    var made := WithLastApplied(desired);
    BareMetadata(desired);
    RepairIsOverlay(desired, made);
    BareIsLaid(desired);
    OverlayOfBare(made);
  }

  lemma BareIsLaid(desired: Tree)
    requires Built(desired)
    ensures Laid(desired, WithLastApplied(desired)) == Bare(WithLastApplied(desired))
  {
    var made := WithLastApplied(desired);
    BareMetadata(desired);
    assert Meta(Bare(made)).fields - {"creationTimestamp"} == Meta(Bare(made)).fields by {
      BareAt(Meta(made), "creationTimestamp");
    }
    assert Bare(made).fields["metadata" := Meta(Bare(made))] == Bare(made).fields;
  }

  /** Repairing a second time changes nothing, nulls or not. */
  lemma {:induction false} RepairAgain(desired: Tree, found: Tree)
    requires Built(desired) && Stored(found) && SameName(desired, found)
    ensures var once := RepairOf(WithLastApplied(desired), found);
            once.Repaired? && Stored(once.tree) && SameName(desired, once.tree)
            && RepairOf(WithLastApplied(desired), once.tree) == once
  {
    hide RepairOf, WithLastApplied, Built, Meaning, Prepared, Stamped, Bare, Flat, StringsOnly;
    var bare := Bare(WithLastApplied(desired));
    BareMetadata(desired);
    BareIsPrepared(desired);
    PreparedMeans(bare, desired);
    RepairIsOverlay(desired, found);
    RepairedMetadata(Empty, bare, found);
    RepairIsOverlay(desired, Overlay(found, Laid(desired, found)));
    MeaningIdempotent(Empty, Laid(desired, found), found);
  }

  lemma {:induction false} MeaningBelow(original: Tree, modified: Tree, current: Tree, k: string)
    requires k in modified.fields && modified.fields[k].Obj? && k in current.fields && current.fields[k].Obj?
    ensures Sub(Meaning(original, modified, current), k) == Meaning(Sub(original, k), modified.fields[k],
                                                                    current.fields[k])
  {
  }

  /** Labels and annotations after a repair, whether the found object had any or not: the
      operator's own restored, everyone else's kept. */
  lemma {:induction false} RepairSection(desired: Tree, found: Tree, section: string, k: string)
    requires Built(desired) && Stored(found) && SameName(desired, found) && section in {"labels", "annotations"}
    ensures RepairOf(WithLastApplied(desired), found).Repaired?
    ensures var mine, theirs := Section(WithLastApplied(desired), section).fields, Section(found, section).fields;
            var after := Section(RepairOf(WithLastApplied(desired), found).tree, section).fields;
            if k in mine then k in after && after[k] == mine[k]
            else (k in after <==> k in theirs) && (k in after ==> after[k] == theirs[k])
  {
    hide RepairOf, Built, WithLastApplied, Prepared, Bare;
    RepairIsOverlay(desired, found);
    BareMetadata(desired);
    BareIsPrepared(desired);
    var laid := Laid(desired, found);
    StampedKeeps(Bare(WithLastApplied(desired)), found);
    MeaningBelow(Empty, laid, found, "metadata");
    SectionOfMeaning(Meta(laid), Meta(found), section, k);
  }

  lemma {:induction false} SectionOfMeaning(mine: Tree, theirs: Tree, section: string, k: string)
    requires Flat(Sub(mine, section)) && (section in mine.fields ==> mine.fields[section].Obj?)
    ensures var after := Sub(Meaning(Empty, mine, theirs), section).fields;
            if k in Sub(mine, section).fields then k in after && after[k] == Sub(mine, section).fields[k]
            else (k in after <==> k in Sub(theirs, section).fields)
                 && (k in after ==> after[k] == Sub(theirs, section).fields[k])
  {
    if section in mine.fields && section in theirs.fields && theirs.fields[section].Obj? {
      MeaningBelow(Empty, mine, theirs, section);
    }
  }

  /** A place that the previous version of the operator set and this one no longer mentions
      survives repair, whatever the annotation on the found object says was applied before ... */
  lemma {:induction false} DroppedFieldSurvives(previous: Tree, desired: Tree, found: Tree, path: seq<string>)
    requires Built(desired) && Stored(found) && SameName(desired, found)
    requires Silent(Laid(desired, found), path)
    requires LAST_APPLIED in Section(found, "annotations").fields
             && Section(found, "annotations").fields[LAST_APPLIED] == Text(previous) && At(previous, path).Value?
    ensures RepairOf(WithLastApplied(desired), found).Repaired?
    ensures At(RepairOf(WithLastApplied(desired), found).tree, path) == At(found, path)
  {
    RepairIsOverlay(desired, found);
    OverlaySpares(found, Laid(desired, found), path);
  }

  /** ... although a merge against that annotation would have removed it. */
  lemma {:induction false} DroppedFieldWouldGo(previous: Tree, modified: Tree, current: Tree, path: seq<string>)
    requires NullFree(modified) && Silent(modified, path) && At(previous, path).Value?
    ensures ThreeWay(previous, modified, current).Merged?
    ensures At(ThreeWay(previous, modified, current).tree, path) == Nothing
    decreases |path|
  {
    ThreeWayMeans(previous, modified, current);
    var k := path[0];
    if k in modified.fields {
      if k in current.fields && current.fields[k].Obj? {
        DroppedFieldWouldGo(previous.fields[k], modified.fields[k], current.fields[k], path[1..]);
        ThreeWayMeans(previous.fields[k], modified.fields[k], current.fields[k]);
      } else {
        SilentMissing(modified.fields[k], path[1..]);
      }
    }
  }

  // -------------------------------------------------------------------------- CSI drivers

  ghost predicate StoredDriver(found: Tree) {
    && Stored(found) && "spec" in found.fields && found.fields["spec"].Obj?
    && forall k | k in IMMUTABLE && k in Sub(found, "spec").fields :: NullFree(Sub(found, "spec").fields[k])
  }

  ghost predicate BuiltDriver(desired: Tree) {
    Built(desired) && NullFree(desired) && "spec" in desired.fields && desired.fields["spec"].Obj?
  }

  lemma {:induction false} DriverIsPrepared(desired: Tree, found: Tree)
    requires BuiltDriver(desired) && StoredDriver(found)
    ensures Prepared(WithImmutable(WithLastApplied(desired), found), desired)
    ensures Meta(WithImmutable(WithLastApplied(desired), found)) == Meta(WithLastApplied(desired))
  {
    AnnotatedIsPrepared(desired);
    var modified := WithLastApplied(desired);
    assert Sub(modified, "spec") == Sub(desired, "spec");
    ImmutableNullFree(modified, found);
  }

  lemma {:induction false} ImmutableNullFree(modified: Tree, found: Tree)
    requires NullFree(modified) && "spec" in modified.fields && modified.fields["spec"].Obj?
    requires forall k | k in IMMUTABLE && k in Sub(found, "spec").fields :: NullFree(Sub(found, "spec").fields[k])
    ensures NullFree(WithImmutable(modified, found)) && Meta(WithImmutable(modified, found)) == Meta(modified)
  {
    var theirs := Sub(found, "spec").fields;
    assert NullFree(Sub(modified, "spec"));
    TakenNullFree(Sub(modified, "spec").fields, theirs, "attachRequired");
    var one := Taken(Sub(modified, "spec").fields, theirs, "attachRequired");
    TakenNullFree(one, theirs, "podInfoOnMount");
    var two := Taken(one, theirs, "podInfoOnMount");
    TakenNullFree(two, theirs, "volumeLifecycleModes");
    TakenNullFree(Taken(two, theirs, "volumeLifecycleModes"), theirs, "storageCapacity");
    hide Taken;
    assert NullFree(Sub(WithImmutable(modified, found), "spec"));
  }

  lemma {:induction false} TakenNullFree(mine: map<string, Json>, theirs: map<string, Json>, k: string)
    requires NullFree(Obj(mine)) && (k in theirs ==> NullFree(theirs[k]))
    ensures NullFree(Obj(Taken(mine, theirs, k)))
  {
  }

  /** Repairing a CSI driver never changes its immutable fields, and repairing it again writes
      nothing. */
  lemma {:induction false} DriverRepair(desired: Tree, found: Tree)
    requires BuiltDriver(desired) && StoredDriver(found) && SameName(desired, found)
    ensures var once := RepairOf(WithImmutable(WithLastApplied(desired), found), found);
            && once.Repaired?
            && (forall k | k in IMMUTABLE ::
                  (k in Sub(once.tree, "spec").fields <==> k in Sub(found, "spec").fields)
                  && (k in Sub(once.tree, "spec").fields ==>
                        Sub(once.tree, "spec").fields[k] == Sub(found, "spec").fields[k]))
            && WithImmutable(WithLastApplied(desired), once.tree) == WithImmutable(WithLastApplied(desired), found)
            && RepairOf(WithImmutable(WithLastApplied(desired), once.tree), once.tree) == once
  {
    var modified := WithImmutable(WithLastApplied(desired), found);
    DriverIsPrepared(desired, found);
    RepairMeans(desired, modified, found);
    RepairIdempotent(desired, modified, found);
    SpecRepair(desired, modified, found);
    SameImmutable(WithLastApplied(desired), AfterRepair(desired, modified, found), found);
  }

  lemma SameImmutable(desired: Tree, a: Tree, b: Tree)
    requires forall k | k in IMMUTABLE ::
               (k in Sub(a, "spec").fields <==> k in Sub(b, "spec").fields)
               && (k in Sub(a, "spec").fields ==> Sub(a, "spec").fields[k] == Sub(b, "spec").fields[k])
    ensures WithImmutable(desired, a) == WithImmutable(desired, b)
  {
    var x, y := Sub(a, "spec").fields, Sub(b, "spec").fields;
    assert forall mine | true :: Taken(mine, x, "attachRequired") == Taken(mine, y, "attachRequired");
    assert forall mine | true :: Taken(mine, x, "podInfoOnMount") == Taken(mine, y, "podInfoOnMount");
    assert forall mine | true :: Taken(mine, x, "volumeLifecycleModes") == Taken(mine, y, "volumeLifecycleModes");
    assert forall mine | true :: Taken(mine, x, "storageCapacity") == Taken(mine, y, "storageCapacity");
  }

  ghost function AfterRepair(original: Tree, modified: Tree, found: Tree): Tree {
    Meaning(original, Stamped(modified, found), found)
  }

  lemma {:induction false} SpecRepair(desired: Tree, modified: Tree, found: Tree)
    requires "spec" in found.fields && found.fields["spec"].Obj?
    requires modified == WithImmutable(WithLastApplied(desired), found)
    ensures var spec := Sub(AfterRepair(desired, modified, found), "spec").fields;
            forall k | k in IMMUTABLE ::
              (k in spec <==> k in Sub(found, "spec").fields) && (k in spec ==> spec[k] == Sub(found, "spec").fields[k])
  {
    var stamped := Stamped(modified, found);
    var m, f, o := Sub(modified, "spec"), Sub(found, "spec"), Sub(desired, "spec");
    MeaningBelow(desired, stamped, found, "spec");
    forall k | k in IMMUTABLE
      ensures k in Meaning(o, m, f).fields <==> k in f.fields
      ensures k in f.fields ==> Meaning(o, m, f).fields[k] == f.fields[k]
    {
      assert k in m.fields <==> k in f.fields;
      if k in f.fields && f.fields[k].Obj? { MeaningOverItself(Sub(o, k), f.fields[k]); }
    }
  }

  /** Every other field of its spec is what the operator wants, if it is a value or a list, and what was found, if
      the operator says nothing about it. */
  lemma {:induction false} OtherSpecField(desired: Tree, modified: Tree, found: Tree, k: string)
    requires "spec" in found.fields && found.fields["spec"].Obj?
    requires modified == WithImmutable(WithLastApplied(desired), found) && k !in IMMUTABLE
    ensures var mine, theirs := Sub(desired, "spec").fields, Sub(found, "spec").fields;
            var spec := Sub(AfterRepair(desired, modified, found), "spec").fields;
            if k !in mine then (k in spec <==> k in theirs) && (k in theirs ==> spec[k] == theirs[k])
            else !mine[k].Obj? ==> k in spec && spec[k] == mine[k]
  {
    var stamped := Stamped(modified, found);
    MeaningBelow(desired, stamped, found, "spec");
    assert Sub(stamped, "spec") == Sub(modified, "spec");
    var m := Sub(modified, "spec").fields;
    assert Sub(WithLastApplied(desired), "spec") == Sub(desired, "spec");
    assert k in m <==> k in Sub(desired, "spec").fields;
  }

  // ----------------------------------------------------------------------- before the merge

  /** What is written into the found object before the merge: every label and annotation of desired, over what
      was there; and nothing else. */
  lemma WrittenFirst(desired: Tree, found: Tree, section: string, k: string)
    requires section == "labels" || section == "annotations"
    ensures var mine, theirs := Section(desired, section).fields, Section(found, section).fields;
            var after := Section(MergedMeta(desired, found), section).fields;
            && (k in after <==> k in mine || k in theirs)
            && (k in mine ==> after[k] == mine[k]) && (k in theirs && k !in mine ==> after[k] == theirs[k])
    ensures k != "labels" && k != "annotations" && k in Meta(found).fields ==>
              k in Meta(MergedMeta(desired, found)).fields
              && Meta(MergedMeta(desired, found)).fields[k] == Meta(found).fields[k]
    ensures k != "metadata" ==>
              (k in MergedMeta(desired, found).fields <==> k in found.fields)
              && (k in found.fields ==> MergedMeta(desired, found).fields[k] == found.fields[k])
  {
  }

  /** The creation time that desired carries into the merge is the found one. */
  lemma StampedMeans(desired: Tree, found: Tree, k: string)
    ensures var after := Meta(Stamped(desired, found)).fields;
            var from := if k == "creationTimestamp" then Meta(found).fields else Meta(desired).fields;
            (k in after <==> k in from) && (k in after ==> after[k] == from[k])
    ensures k != "metadata" ==>
              (k in Stamped(desired, found).fields <==> k in desired.fields)
              && (k in desired.fields ==> Stamped(desired, found).fields[k] == desired.fields[k])
  {
  }
}
