// The validating webhook: which specs an administrator may submit.

module Admission {
  import opened CustomResource

  const MAX_NAME_LENGTH := 50
  const MAX_PATH_LENGTH := 255

  datatype Verdict =
    | Admitted
    | BothSet
    | NeitherSet
    | LegacyPathBlank
    | InvalidPool(index: nat, reason: PoolError)
    | DuplicatePath(index: nat, earlier: nat)
    | DuplicateName(index: nat, earlier: nat)

  datatype PoolError = NameBlank | NameTooLong | PathBlank | PathTooLong

  function ValidatePool(pool: StoragePool): (r: Option<PoolError>)
    ensures r.None? <==> 0 < |pool.name| <= MAX_NAME_LENGTH && 0 < |pool.path| <= MAX_PATH_LENGTH
    ensures r == Some(NameBlank) <==> |pool.name| == 0
    ensures r == Some(NameTooLong) <==> |pool.name| > 50
    ensures r == Some(PathBlank) <==> 0 < |pool.name| <= 50 && |pool.path| == 0
    ensures r == Some(PathTooLong) <==> 0 < |pool.name| <= 50 && |pool.path| > 255

  {
    if pool.name == "" then Some(NameBlank)
    else if |pool.name| > MAX_NAME_LENGTH then Some(NameTooLong)
    else if pool.path == "" then Some(PathBlank)
    else if |pool.path| > MAX_PATH_LENGTH then Some(PathTooLong)
    else None
  }

  ghost predicate PoolsDistinct(pools: seq<StoragePool>) {
    forall i, j | 0 <= i < j < |pools| :: pools[i].path != pools[j].path && pools[i].name != pools[j].name
  }

  ghost predicate PoolsAdmissible(pools: seq<StoragePool>) {
    PoolsDistinct(pools) && forall i | 0 <= i < |pools| :: ValidatePool(pools[i]).None?
  }

  /** Exactly one of the two ways to configure storage, within bounds and without repetition. */
  ghost predicate Admissible(spec: Spec) {
    && (spec.pathConfig.Some? <==> spec.storagePools == [])
    && (spec.pathConfig.Some? ==> spec.pathConfig.value.path != "")
    && PoolsAdmissible(spec.storagePools)
  }

  /** One pass over the pools with two maps of what was seen decides admission, and reports the
      first offending pool together with its first earlier twin. */
  method Validate(spec: Spec) returns (r: Verdict)
    ensures r.Admitted? <==> Admissible(spec)
    ensures r.BothSet? <==> spec.pathConfig.Some? && spec.storagePools != []
    ensures r.NeitherSet? <==> spec.pathConfig.None? && spec.storagePools == []
    ensures r.LegacyPathBlank? <==> spec.pathConfig.Some? && spec.storagePools == [] && spec.pathConfig.value.path == ""
    ensures r.InvalidPool? ==>
              r.index < |spec.storagePools| && PoolsAdmissible(spec.storagePools[..r.index])
              && ValidatePool(spec.storagePools[r.index]) == Some(r.reason)
    ensures r.DuplicatePath? ==> TwinPath(spec.storagePools, r.index, r.earlier)
    ensures r.DuplicateName? ==>
              TwinName(spec.storagePools, r.index, r.earlier)
              && forall j | 0 <= j < r.index :: spec.storagePools[j].path != spec.storagePools[r.index].path
  {
    if spec.pathConfig.Some? && |spec.storagePools| > 0 {
      return BothSet;
    } else if spec.pathConfig.None? && |spec.storagePools| == 0 {
      return NeitherSet;
    }
    if spec.pathConfig.Some? && |spec.pathConfig.value.path| == 0 {
      return LegacyPathBlank;
    }
    var pools := spec.storagePools;
    var usedPaths: map<string, nat>, usedNames: map<string, nat> := map[], map[];
    for i := 0 to |pools|
      invariant PoolsAdmissible(pools[..i])
      invariant forall k | k in usedPaths :: usedPaths[k] < i && pools[usedPaths[k]].path == k
      invariant forall k | k in usedNames :: usedNames[k] < i && pools[usedNames[k]].name == k
      invariant forall j | 0 <= j < i :: pools[j].path in usedPaths && usedPaths[pools[j].path] == j
      invariant forall j | 0 <= j < i :: pools[j].name in usedNames && usedNames[pools[j].name] == j
    {
      var pool := pools[i];
      assert pools[..i + 1] == pools[..i] + [pool];
      match ValidatePool(pool) {
        case Some(reason) => return InvalidPool(i, reason);
        case None =>
      }
      if pool.path !in usedPaths {
        usedPaths := usedPaths[pool.path := i];
      } else {
        return DuplicatePath(i, usedPaths[pool.path]);
      }
      if pool.name !in usedNames {
        usedNames := usedNames[pool.name := i];
      } else {
        return DuplicateName(i, usedNames[pool.name]);
      }
    }
    assert pools[..|pools|] == pools;
    r := Admitted;
  }

  /** The pools before index are admissible, index is valid, and earlier is the one pool among
      them with its path. */
  ghost predicate TwinPath(pools: seq<StoragePool>, index: nat, earlier: nat) {
    earlier < index < |pools| && PoolsAdmissible(pools[..index]) && ValidatePool(pools[index]).None?
    && forall j | 0 <= j < index :: pools[j].path == pools[index].path <==> j == earlier
  }

  ghost predicate TwinName(pools: seq<StoragePool>, index: nat, earlier: nat) {
    earlier < index < |pools| && PoolsAdmissible(pools[..index]) && ValidatePool(pools[index]).None?
    && forall j | 0 <= j < index :: pools[j].name == pools[index].name <==> j == earlier
  }
}
