// Volumes, mounts and the pool argument of the CSI pod (daemonset.go). The pool argument is built
// by rewriting the very slice the volumes and mounts were built from.

module PodWiring {
  import opened CustomResource
  import opened Names
  import opened Strings
  import Admission

  /** StoragePoolInfo, the element of the shared slice. */
  datatype PoolInfo = PoolInfo(
    name: string,
    path: string,
    snapshotPath: Option<string>,
    snapshotProvider: Option<string>,
    shared: bool)

  datatype Volume = Volume(name: string, hostPath: string)

  datatype VolumeMount = VolumeMount(name: string, mountPath: string)

  datatype Container = Container(name: string, mounts: seq<VolumeMount>)

  /** pvDir is the list that the PV_DIR variable encodes. */
  datatype Pod = Pod(volumes: seq<Volume>, containers: seq<Container>, pvDir: seq<PoolInfo>)

  const LEGACY_POOL := "legacy"
  const DRIVER_CONTAINER := "hostpath-provisioner"
  const REGISTRAR_CONTAINER := "node-driver-registrar"

  // -------------------------------------------------------------------------- file paths

  /** Drops empty and dot elements and resolves parent elements. */
  function Resolve(parts: seq<string>, rooted: bool, stack: seq<string>): seq<string> {
    if parts == [] then stack
    else if parts[0] == "" || parts[0] == "." then Resolve(parts[1..], rooted, stack)
    else if parts[0] == ".." then
      if stack != [] && stack[|stack| - 1] != ".." then Resolve(parts[1..], rooted, stack[..|stack| - 1])
      else if rooted then Resolve(parts[1..], rooted, stack)
      else Resolve(parts[1..], rooted, stack + [".."])
    else Resolve(parts[1..], rooted, stack + [parts[0]])
  }

  function Clean(path: string): string {
    var rooted := path != "" && path[0] == '/';
    var parts := Resolve(Split(path, '/'), rooted, []);
    if rooted then "/" + Concat(parts, '/') else if parts == [] then "." else Concat(parts, '/')
  }

  /** filepath.Join of elements that are not empty. */
  function Join(elements: seq<string>): string {
    Clean(Concat(elements, '/'))
  }

  /** Elements that Resolve keeps: parent elements, where they may come, and then plain ones. */
  predicate NeatParts(parts: seq<string>, up: bool) {
    parts == [] ||
    (parts[0] != "" && parts[0] != "." && if parts[0] == ".." then up && NeatParts(parts[1..], true)
     else NeatParts(parts[1..], false))
  }

  /** No empty and no dot element, and parent elements only at the start of a relative path. */
  predicate Neat(path: string) {
    var parts := Split(path, '/');
    if path != "" && path[0] == '/' then NeatParts(parts[1..], false) else NeatParts(parts, true)
  }

  function Size(parts: seq<string>): nat {
    if parts == [] then 0 else |parts[0]| + 1 + Size(parts[1..])
  }

  lemma {:induction false} SizeSnoc(parts: seq<string>, last: string)
    ensures Size(parts + [last]) == Size(parts) + |last| + 1
  {
    if parts != [] {
      SizeSnoc(parts[1..], last);
      assert (parts + [last])[1..] == parts[1..] + [last];
    }
  }

  lemma {:induction false} ConcatSize(parts: seq<string>)
    requires parts != []
    ensures |Concat(parts, '/')| == Size(parts) - 1
  {
    if |parts| > 1 { ConcatSize(parts[1..]); }
  }

  /** Resolving keeps neat elements as they are and makes all others shorter. */
  lemma {:induction false} ResolveShortens(parts: seq<string>, rooted: bool, stack: seq<string>)
    ensures var up := !rooted && (stack == [] || stack[|stack| - 1] == "..");
            && (NeatParts(parts, up) ==> Resolve(parts, rooted, stack) == stack + parts)
            && (!NeatParts(parts, up) ==> Size(Resolve(parts, rooted, stack)) < Size(stack) + Size(parts))
  {
    if parts != [] {
      var top := stack + [parts[0]];
      assert top + parts[1..] == stack + parts;
      SizeSnoc(stack, parts[0]);
      if parts[0] == "" || parts[0] == "." {
        ResolveShorter(parts[1..], rooted, stack);
      } else if parts[0] == ".." && stack != [] && stack[|stack| - 1] != ".." {
        assert stack == stack[..|stack| - 1] + [stack[|stack| - 1]];
        SizeSnoc(stack[..|stack| - 1], stack[|stack| - 1]);
        ResolveShorter(parts[1..], rooted, stack[..|stack| - 1]);
      } else if parts[0] == ".." && rooted {
        ResolveShorter(parts[1..], rooted, stack);
      } else {
        ResolveShortens(parts[1..], rooted, top);
      }
    }
  }

  lemma {:induction false} ResolveShorter(parts: seq<string>, rooted: bool, stack: seq<string>)
    ensures Size(Resolve(parts, rooted, stack)) <= Size(stack) + Size(parts)
  {
    if parts != [] {
      SizeSnoc(stack, parts[0]);
      ResolveShorter(parts[1..], rooted, stack);
      ResolveShorter(parts[1..], rooted, stack + [parts[0]]);
      if stack != [] {
        assert stack == stack[..|stack| - 1] + [stack[|stack| - 1]];
        SizeSnoc(stack[..|stack| - 1], stack[|stack| - 1]);
        ResolveShorter(parts[1..], rooted, stack[..|stack| - 1]);
      }
    }
  }

  /** Cleaning leaves a path of more than one character alone exactly when it is neat. */
  lemma CleanKeepsNeat(path: string)
    requires |path| > 1
    ensures Clean(path) == path <==> Neat(path)
  {
    var parts, rooted := Split(path, '/'), path[0] == '/';
    ConcatSplit(path, '/');
    if rooted {
      var rest := parts[1..];
      assert Find(path, '/') == 0 && parts == [""] + Split(path[1..], '/') && rest == Split(path[1..], '/');
      ConcatSplit(path[1..], '/');
      assert path == "/" + Concat(rest, '/');
      assert Resolve(parts, true, []) == Resolve(rest, true, []);
      ResolveShortens(rest, true, []);
      CleanLength(rest, true);
    } else {
      ResolveShortens(parts, false, []);
      CleanLength(parts, false);
    }
  }

  lemma CleanLength(parts: seq<string>, rooted: bool)
    requires parts != []
    ensures Resolve(parts, rooted, []) == [] + parts ==> Concat(Resolve(parts, rooted, []), '/') == Concat(parts, '/')
    ensures Size(Resolve(parts, rooted, [])) < Size([]) + Size(parts) ==>
              Resolve(parts, rooted, []) == [] || |Concat(Resolve(parts, rooted, []), '/')| < |Concat(parts, '/')|
    ensures |Concat(parts, '/')| == Size(parts) - 1
  {
    assert [] + parts == parts;
    ConcatSize(parts);
    if Resolve(parts, rooted, []) != [] { ConcatSize(Resolve(parts, rooted, [])); }
  }

  lemma {:induction false} NeatSnoc(parts: seq<string>, last: string, up: bool)
    requires last != "" && last != "." && last != ".."
    ensures NeatParts(parts + [last], up) <==> NeatParts(parts, up)
  {
    if parts != [] {
      assert (parts + [last])[1..] == parts[1..] + [last];
      NeatSnoc(parts[1..], last, true);
      NeatSnoc(parts[1..], last, false);
    }
  }

  /** A plain element at the end makes no difference. */
  lemma NeatBelow(path: string, last: string)
    requires path != "" && '/' !in last && last != "" && last != "." && last != ".."
    ensures Neat(path + "/" + last) <==> Neat(path)
  {
    var parts := Split(path, '/');
    SplitAppend(path, '/', last);
    assert path + "/" + last == path + ['/'] + last && (parts + [last])[1..] == parts[1..] + [last];
    NeatSnoc(parts, last, true);
    NeatSnoc(parts[1..], last, false);
  }

  /** Joining a mount name with the directories below it is writing slashes between them exactly when
      the mount name is neat. */
  lemma JoinsBelow(mount: string)
    requires mount != ""
    ensures Join([mount, "csi"]) == mount + "/csi" <==> Neat(mount)
    ensures Join([mount, "csi", "snapshots"]) == mount + "/csi/snapshots" <==> Neat(mount)
  {
    assert [mount, "csi"][1..] == ["csi"] && [mount, "csi", "snapshots"][1..] == ["csi", "snapshots"]
           && ["csi", "snapshots"][1..] == ["snapshots"];
    assert Concat(["csi"], '/') == "csi" && Concat(["csi", "snapshots"], '/') == "csi" + ['/'] + "snapshots";
    assert Concat([mount, "csi"], '/') == mount + "/" + "csi" == mount + "/csi";
    assert Concat([mount, "csi", "snapshots"], '/') == mount + "/csi" + "/" + "snapshots" == mount + "/csi/snapshots";
    NeatBelow(mount, "csi");
    NeatBelow(mount + "/csi", "snapshots");
    CleanKeepsNeat(mount + "/csi");
    CleanKeepsNeat(mount + "/csi/snapshots");
  }

  // ------------------------------------------------------------------- building the pod

  function PoolInfos(spec: Spec): seq<PoolInfo> {
    if spec.pathConfig.Some? then [PoolInfo("", spec.pathConfig.value.path, None, None, false)]
    else seq(|spec.storagePools|, i requires 0 <= i < |spec.storagePools| =>
           var p := spec.storagePools[i];
           PoolInfo(p.name, p.path, None, p.snapshotProvider, p.template.Some? && IsShared(p.template.value)))
  }

  method GetStoragePoolPaths(spec: Spec) returns (infos: array<PoolInfo>)
    ensures fresh(infos) && infos[..] == PoolInfos(spec)
    ensures spec.pathConfig.Some? ==>
              infos.Length == 1 && infos[0] == PoolInfo("", spec.pathConfig.value.path, None, None, false)
    ensures spec.pathConfig.None? ==> infos.Length == |spec.storagePools|
    ensures spec.pathConfig.None? ==> forall i | 0 <= i < infos.Length ::
                var x, p := infos[i], spec.storagePools[i];
                && x.name == p.name && x.path == p.path && x.snapshotProvider == p.snapshotProvider
                && (x.shared <==> p.template.Some? && ReadWriteMany in p.template.value.accessModes)

  {
    var list: seq<PoolInfo> := [];
    if spec.pathConfig.Some? {
      list := list + [PoolInfo("", spec.pathConfig.value.path, None, None, false)];
    } else if |spec.storagePools| > 0 {
      for i := 0 to |spec.storagePools|
        invariant list == PoolInfos(spec)[..i]
      {
        var p := spec.storagePools[i];
        var shared := p.template.Some? && IsShared(p.template.value);
        list := list + [PoolInfo(p.name, p.path, None, p.snapshotProvider, shared)];
      }
    }
    infos := new PoolInfo[|list|](i requires 0 <= i < |list| => list[i]);
    assert infos[..] == list;
  }

  method BuildVolumes(infos: array<PoolInfo>) returns (volumes: seq<Volume>)
    ensures |volumes| == infos.Length
    ensures forall i | 0 <= i < infos.Length :: volumes[i] == Volume(MountName(infos[i].name), infos[i].path)
  {
    volumes := [];
    for i := 0 to infos.Length
      invariant |volumes| == i
      invariant forall j | 0 <= j < i :: volumes[j] == Volume(MountName(infos[j].name), infos[j].path)
    {
      volumes := volumes + [Volume(MountName(infos[i].name), infos[i].path)];
    }
  }

  method BuildVolumeMounts(infos: array<PoolInfo>) returns (mounts: seq<VolumeMount>)
    ensures |mounts| == infos.Length
    ensures forall i | 0 <= i < infos.Length ::
              mounts[i] == VolumeMount(MountName(infos[i].name), "/" + MountName(infos[i].name))
  {
    mounts := [];
    for i := 0 to infos.Length
      invariant |mounts| == i
      invariant forall j | 0 <= j < i ::
          mounts[j] == VolumeMount(MountName(infos[j].name), "/" + MountName(infos[j].name))
    {
      mounts := mounts + [VolumeMount(MountName(infos[i].name), "/" + MountName(infos[i].name))];
    }
  }

  /** One element after the rewrite. The mount name still comes from the name before it. */
  function Rewritten(info: PoolInfo): PoolInfo {
    var mount := MountName(info.name);
    info.(name := if info.name == "" then LEGACY_POOL else info.name,
    path := Join([mount, "csi"]),
    snapshotPath := if info.snapshotProvider.Some? then Some(Join([mount, "csi", "snapshots"]))
    else info.snapshotPath)
  }

  method BuildPathArg(infos: array<PoolInfo>) returns (encoded: seq<PoolInfo>)
    modifies infos
    ensures forall i | 0 <= i < infos.Length :: infos[i] == Rewritten(old(infos[i]))
    ensures encoded == infos[..]
  {
    for i := 0 to infos.Length
      invariant forall j | 0 <= j < i :: infos[j] == Rewritten(old(infos[j]))
      invariant forall j | i <= j < infos.Length :: infos[j] == old(infos[j])
    {
      var info := infos[i];
      if info.name == "" {
        infos[i] := infos[i].(name := LEGACY_POOL);
      }
      infos[i] := infos[i].(path := Join([MountName(info.name), "csi"]));
      if info.snapshotProvider.Some? {
        infos[i] := infos[i].(snapshotPath := Some(Join([MountName(info.name), "csi", "snapshots"])));
      }
    }
    encoded := infos[..];
  }

  const SOCKET_MOUNT := VolumeMount("socket-dir", "/csi")

  const FIXED_VOLUMES := [
    Volume("socket-dir", "/var/lib/kubelet/plugins/csi-hostpath"),
    Volume("mountpoint-dir", "/var/lib/kubelet/pods"),
    Volume("registration-dir", "/var/lib/kubelet/plugins_registry"),
    Volume("plugins-dir", "/var/lib/kubelet/plugins")]

  ghost predicate VolumesDistinct(pod: Pod) {
    forall i, j | 0 <= i < j < |pod.volumes| :: pod.volumes[i].name != pod.volumes[j].name
  }

  ghost predicate MountsResolve(pod: Pod) {
    forall c | c in pod.containers :: forall m | m in c.mounts :: exists v :: v in pod.volumes && v.name == m.name
  }

  /** A pool is the same pool everywhere: volume i has its path, the two containers that see pools mount
      it, and entry i of PV_DIR has its name, its snapshot provider and whether it is shared. */
  ghost predicate PoolPlaced(pod: Pod, i: nat, name: string, path: string, provider: Option<string>, shared: bool) {
    && |FIXED_VOLUMES| + i < |pod.volumes| && pod.volumes[|FIXED_VOLUMES| + i] == Volume(MountName(name), path)
    && (forall c | c in pod.containers && c.name in {DRIVER_CONTAINER, REGISTRAR_CONTAINER} ::
          VolumeMount(MountName(name), "/" + MountName(name)) in c.mounts)
    && i < |pod.pvDir| && pod.pvDir[i].name == (if name == "" then LEGACY_POOL else name)
    && pod.pvDir[i].snapshotProvider == provider && pod.pvDir[i].shared == shared
  }

  /** Entry i of PV_DIR names the directory csi below the mount, and snapshots below that for a pool with a
      provider. */
  ghost predicate PathsFit(pod: Pod, i: nat, name: string, provider: Option<string>) {
    && i < |pod.pvDir| && pod.pvDir[i].path == MountName(name) + "/csi"
    && pod.pvDir[i].snapshotPath == (if provider.Some? then Some(MountName(name) + "/csi/snapshots") else None)
  }

  ghost predicate PoolServed(pod: Pod, i: nat, name: string, path: string, provider: Option<string>, shared: bool) {
    PoolPlaced(pod, i, name, path, provider, shared) && (PathsFit(pod, i, name, provider) <==> Neat(MountName(name)))
  }

  /** The pod has the pools of the spec and no others: the one at the configured path, or one volume and one
      entry for every storage pool, in order. */
  ghost predicate ServesSpec(pod: Pod, spec: Spec) {
    if spec.pathConfig.Some? then
      && |pod.pvDir| == 1 && |pod.volumes| == 5
      && PoolServed(pod, 0, "", spec.pathConfig.value.path, None, false) && PathsFit(pod, 0, "", None)
    else
      && |pod.pvDir| == |spec.storagePools| && |pod.volumes| == 4 + |spec.storagePools|
      && forall i | 0 <= i < |spec.storagePools| ::
           var p := spec.storagePools[i];
           var shared := p.template.Some? && ReadWriteMany in p.template.value.accessModes;
           PoolServed(pod, i, p.name, p.path, p.snapshotProvider, shared)
  }

  predicate SeesPools(c: Container) {
    c.name == DRIVER_CONTAINER || c.name == REGISTRAR_CONTAINER
  }

  const FIXED_NAMES := {"socket-dir", "mountpoint-dir", "registration-dir", "plugins-dir"}

  function WithPools(c: Container, poolMounts: seq<VolumeMount>): Container {
    if SeesPools(c) then c.(mounts := c.mounts + poolMounts) else c
  }

  function PlainContainers(snapshotting: bool): (r: seq<Container>)
    ensures forall c | c in r :: forall m | m in c.mounts :: m.name in FIXED_NAMES
  {
    [Container(DRIVER_CONTAINER, [VolumeMount("plugins-dir", "/var/lib/kubelet/plugins"),
                                  VolumeMount("mountpoint-dir", "/var/lib/kubelet/pods"), SOCKET_MOUNT]),
     Container(REGISTRAR_CONTAINER, [SOCKET_MOUNT, VolumeMount("registration-dir", "/registration")]),
     Container("liveness-probe", [SOCKET_MOUNT]),
     Container("csi-provisioner", [SOCKET_MOUNT])]
    + if snapshotting then [Container("csi-snapshotter", [SOCKET_MOUNT])] else []
  }

  /** Appends the pool mounts, in place, to the containers that see pools. */
  method AppendPoolMounts(plain: seq<Container>, poolMounts: seq<VolumeMount>) returns (containers: seq<Container>)
    ensures |containers| == |plain| && forall j | 0 <= j < |plain| :: containers[j] == WithPools(plain[j], poolMounts)
  {
    containers := plain;
    for i := 0 to |plain|
      invariant |containers| == |plain|
      invariant forall j | 0 <= j < |plain| ::
          containers[j] == if j < i then WithPools(plain[j], poolMounts) else plain[j]
    {
      if SeesPools(containers[i]) {
        containers := containers[i := containers[i].(mounts := containers[i].mounts + poolMounts)];
      }
    }
  }

  /** The CSI pod of an admitted spec: volumes are distinct, mounts find them, only two containers see
      pools, every pool is placed, and its paths fit exactly when its mount name is a neat path. */
  method CreateCsiPod(spec: Spec) returns (pod: Pod)
    requires Admission.Admissible(spec)
    ensures VolumesDistinct(pod) && MountsResolve(pod)
    ensures ServesSpec(pod, spec)
    ensures |pod.containers| >= 2 && pod.containers[0].name == DRIVER_CONTAINER
            && pod.containers[1].name == REGISTRAR_CONTAINER
    ensures forall c | c in pod.containers && c.name !in {DRIVER_CONTAINER, REGISTRAR_CONTAINER} ::
              forall m | m in c.mounts :: m.name in FIXED_NAMES
    ensures |pod.containers| == if Snapshotting(spec) then 5 else 4
    ensures forall c | c in pod.containers :: SOCKET_MOUNT in c.mounts
  {
    hide SOCKET_MOUNT, Snapshotting, FIXED_NAMES, FIXED_VOLUMES, ServesSpec, VolumesDistinct, MountsResolve,
      PlainContainers, DRIVER_CONTAINER, REGISTRAR_CONTAINER, MountName, Rewritten;
    var infos := GetStoragePoolPaths(spec);
    ghost var was := PoolInfos(spec);
    assert forall i | 0 <= i < |was| :: infos[i] == infos[..][i] == was[i];
    var poolVolumes := BuildVolumes(infos);
    var poolMounts := BuildVolumeMounts(infos);
    var pvDir := BuildPathArg(infos);
    ghost var plain := PlainContainers(Snapshotting(spec));
    var containers := AppendPoolMounts(PlainContainers(Snapshotting(spec)), poolMounts);
    ContainersSeePools(plain, containers, poolMounts);
    FirstContainers(Snapshotting(spec));
    var volumes := FIXED_VOLUMES + poolVolumes;
    pod := Pod(volumes, containers, pvDir);
    PodServes(spec, pod, poolVolumes, poolMounts);
    PodCoheres(spec, pod, poolVolumes, poolMounts);
  }

  // ------------------------------------------------------------------------------ proofs

  /** Mount names of admitted pools end in -data-dir. */
  lemma MountNameShape(spec: Spec, i: nat)
    requires Admission.Admissible(spec) && i < |PoolInfos(spec)|
    ensures MountName(PoolInfos(spec)[i].name) == (if PoolInfos(spec)[i].name == "" then "csi"
                                                   else PoolInfos(spec)[i].name) + "-data-dir"
  {
    var info := PoolInfos(spec)[i];
    var base := if info.name == "" then "csi" else info.name;
    if spec.pathConfig.None? {
      assert Admission.ValidatePool(spec.storagePools[i]).None?;
      assert spec.storagePools[i] in spec.storagePools;
    }
    PoolNamesInjective(base, base);
  }

  /** So only a pool name with a slash can make one that is not neat. */
  lemma SlashFreeIsNeat(spec: Spec, i: nat)
    requires Admission.Admissible(spec) && i < |PoolInfos(spec)| && '/' !in PoolInfos(spec)[i].name
    ensures Neat(MountName(PoolInfos(spec)[i].name))
  {
    MountNameShape(spec, i);
    var name := MountName(PoolInfos(spec)[i].name);
    assert |name| > 2 && '/' !in "csi" + "-data-dir" && '/' !in name;
    SplitWhole(name, '/');
    assert [name][1..] == [];
  }

  /** A pool of that name is admitted, and its entry in PV_DIR is not where it is mounted. */
  lemma DoubledSlashIsNotNeat()
    ensures Admission.ValidatePool(StoragePool("a//b", None, "/p", None, "")).None?
    ensures !Neat(MountName("a//b"))
  {
    PoolNamesInjective("a//b", "a//b");
    assert "a//b" + "-data-dir" == "a//b-data-dir" == "a" + ['/'] + "/b-data-dir"
           && "/b-data-dir" == "" + ['/'] + "b-data-dir";
    TwoSlashes("a", "b-data-dir");
  }

  lemma TwoSlashes(before: string, after: string)
    requires before != "" && '/' !in before
    ensures !Neat(before + ['/'] + ("" + ['/'] + after))
  {
    SplitAtSeparator(before, '/', "" + ['/'] + after);
    SplitAtSeparator("", '/', after);
    var parts := [before] + ([""] + Split(after, '/'));
    assert parts[1..][0] == "" && (before + ['/'] + ("" + ['/'] + after))[0] == before[0];
    assert parts[0] == before && !NeatParts(parts[1..], true) && !NeatParts(parts[1..], false);
  }

  lemma FixedVolumeNames()
    ensures forall v | v in FIXED_VOLUMES :: |v.name| >= 5 && v.name[|v.name| - 5] != 'a'
    ensures forall i, j | 0 <= i < j < |FIXED_VOLUMES| :: FIXED_VOLUMES[i].name != FIXED_VOLUMES[j].name
    ensures forall n | n in FIXED_NAMES :: exists v :: v in FIXED_VOLUMES && v.name == n
  {
    assert FIXED_VOLUMES[0] in FIXED_VOLUMES && FIXED_VOLUMES[1] in FIXED_VOLUMES;
    assert FIXED_VOLUMES[2] in FIXED_VOLUMES && FIXED_VOLUMES[3] in FIXED_VOLUMES;
    assert |FIXED_VOLUMES| == 4;
    assert |FIXED_VOLUMES[0].name| == 10 && |FIXED_VOLUMES[1].name| == 14;
    assert |FIXED_VOLUMES[2].name| == 16 && |FIXED_VOLUMES[3].name| == 11;
  }

  lemma PoolVolumeName(spec: Spec, i: nat)
    requires Admission.Admissible(spec) && i < |PoolInfos(spec)|
    ensures var name := MountName(PoolInfos(spec)[i].name);
            |name| >= 5 && name[|name| - 5] == 'a'
  {
    MountNameShape(spec, i);
  }

  lemma PoolVolumesDiffer(spec: Spec, i: nat, j: nat)
    requires Admission.Admissible(spec) && i < j < |PoolInfos(spec)|
    ensures MountName(PoolInfos(spec)[i].name) != MountName(PoolInfos(spec)[j].name)
  {
    var p, q := spec.storagePools[i], spec.storagePools[j];
    assert Admission.ValidatePool(p).None? && Admission.ValidatePool(q).None? && p.name != q.name;
    PoolNamesInjective(p.name, q.name);
  }

  lemma DistinctVolumes(spec: Spec, fixed: seq<Volume>, volumes: seq<Volume>)
    requires Admission.Admissible(spec)
    requires forall v | v in fixed :: |v.name| >= 5 && v.name[|v.name| - 5] != 'a'
    requires forall i, j | 0 <= i < j < |fixed| :: fixed[i].name != fixed[j].name
    requires |volumes| == |fixed| + |PoolInfos(spec)| && fixed <= volumes
    requires forall i | 0 <= i < |PoolInfos(spec)| :: volumes[|fixed| + i].name == MountName(PoolInfos(spec)[i].name)
    ensures forall i, j | 0 <= i < j < |volumes| :: volumes[i].name != volumes[j].name
  {
    var n := |fixed|;
    forall i, j | 0 <= i < j < |volumes| ensures volumes[i].name != volumes[j].name {
      if j < n {
        assert volumes[i] == fixed[i] && volumes[j] == fixed[j];
      } else if i < n {
        assert volumes[i] == fixed[i] && volumes[i] in fixed;
        PoolVolumeName(spec, j - n);
        assert volumes[n + (j - n)] == volumes[j];
      } else {
        PoolVolumesDiffer(spec, i - n, j - n);
        assert volumes[n + (i - n)] == volumes[i] && volumes[n + (j - n)] == volumes[j];
      }
    }
  }

  lemma WiresPool(spec: Spec, pod: Pod, mount: VolumeMount, i: nat)
    requires Admission.Admissible(spec) && i < |PoolInfos(spec)|
    requires |pod.pvDir| == |PoolInfos(spec)| && |pod.volumes| == |FIXED_VOLUMES| + |PoolInfos(spec)|
    requires var info := PoolInfos(spec)[i];
             && pod.volumes[|FIXED_VOLUMES| + i] == Volume(MountName(info.name), info.path)
             && mount == VolumeMount(MountName(info.name), "/" + MountName(info.name))
             && pod.pvDir[i] == Rewritten(info)
    requires forall c | c in pod.containers && SeesPools(c) :: mount in c.mounts
    ensures var info := PoolInfos(spec)[i];
            PoolServed(pod, i, info.name, info.path, info.snapshotProvider, info.shared)
  {
    var name := MountName(PoolInfos(spec)[i].name);
    MountNameShape(spec, i);
    JoinsBelow(name);
    assert name + "/csi" + "/snapshots" == name + "/csi/snapshots";
    assert ("/" + name)[1..] == name;
  }

  lemma FirstContainers(snapshotting: bool)
    ensures |PlainContainers(snapshotting)| >= 2
    ensures PlainContainers(snapshotting)[0].name == DRIVER_CONTAINER
    ensures PlainContainers(snapshotting)[1].name == REGISTRAR_CONTAINER
    ensures |PlainContainers(snapshotting)| == if snapshotting then 5 else 4
    ensures forall c | c in PlainContainers(snapshotting) :: SOCKET_MOUNT in c.mounts
  {
  }

  lemma ContainersSeePools(plain: seq<Container>, containers: seq<Container>, poolMounts: seq<VolumeMount>)
    requires |containers| == |plain| && forall j | 0 <= j < |plain| :: containers[j] == WithPools(plain[j], poolMounts)
    requires forall c | c in plain :: forall m | m in c.mounts :: m.name in FIXED_NAMES
    ensures forall c | c in containers && SeesPools(c) :: forall m | m in poolMounts :: m in c.mounts
    ensures (forall c | c in plain :: SOCKET_MOUNT in c.mounts) ==> forall c | c in containers ::
                SOCKET_MOUNT in c.mounts
    ensures forall c | c in containers :: forall m | m in c.mounts ::
                                            m.name in FIXED_NAMES || (SeesPools(c) && m in poolMounts)
  {
    forall c | c in containers
      ensures SeesPools(c) ==> forall m | m in poolMounts :: m in c.mounts
      ensures (forall p | p in plain :: SOCKET_MOUNT in p.mounts) ==> SOCKET_MOUNT in c.mounts
      ensures forall m | m in c.mounts :: m.name in FIXED_NAMES || (SeesPools(c) && m in poolMounts)
    {
      var j :| 0 <= j < |containers| && containers[j] == c;
      assert plain[j] in plain && c == WithPools(plain[j], poolMounts);
    }
  }

  /** What the pod is made of. */
  ghost predicate MadeOf(pod: Pod, infos: seq<PoolInfo>, poolVolumes: seq<Volume>, poolMounts: seq<VolumeMount>) {
    && |poolVolumes| == |poolMounts| == |pod.pvDir| == |infos| && pod.volumes == FIXED_VOLUMES + poolVolumes
    && (forall i | 0 <= i < |infos| :: Built(infos[i], poolVolumes[i], poolMounts[i], pod.pvDir[i]))
    && (forall c | c in pod.containers && SeesPools(c) :: forall m | m in poolMounts :: m in c.mounts)
    && (forall c | c in pod.containers ::
          forall m | m in c.mounts :: m.name in FIXED_NAMES || (SeesPools(c) && m in poolMounts))
  }

  lemma PodServes(spec: Spec, pod: Pod, poolVolumes: seq<Volume>, poolMounts: seq<VolumeMount>)
    requires Admission.Admissible(spec) && MadeOf(pod, PoolInfos(spec), poolVolumes, poolMounts)
    ensures ServesSpec(pod, spec)
  {
    hide ServesSpec, PoolServed;
    forall i | 0 <= i < |PoolInfos(spec)|
      ensures var info := PoolInfos(spec)[i];
              PoolServed(pod, i, info.name, info.path, info.snapshotProvider, info.shared)
    {
      assert Built(PoolInfos(spec)[i], poolVolumes[i], poolMounts[i], pod.pvDir[i]);
      assert poolMounts[i] in poolMounts && pod.volumes[|FIXED_VOLUMES| + i] == poolVolumes[i];
      WiresPool(spec, pod, poolMounts[i], i);
    }
    SpecIsServed(spec, pod);
  }

  lemma PodCoheres(spec: Spec, pod: Pod, poolVolumes: seq<Volume>, poolMounts: seq<VolumeMount>)
    requires Admission.Admissible(spec) && MadeOf(pod, PoolInfos(spec), poolVolumes, poolMounts)
    ensures VolumesDistinct(pod) && MountsResolve(pod)
  {
    hide FIXED_VOLUMES, FIXED_NAMES, MountName, PoolInfos, MadeOf, MountsResolve, Admission.Admissible;
    PoolNames(spec, pod, poolVolumes, poolMounts);
    FixedVolumeNames();
    DistinctVolumes(spec, FIXED_VOLUMES, pod.volumes);
    MountsAreThere(spec, pod, poolVolumes, poolMounts);
  }

  lemma PoolNames(spec: Spec, pod: Pod, poolVolumes: seq<Volume>, poolMounts: seq<VolumeMount>)
    requires MadeOf(pod, PoolInfos(spec), poolVolumes, poolMounts)
    ensures |pod.volumes| == |FIXED_VOLUMES| + |PoolInfos(spec)| && FIXED_VOLUMES <= pod.volumes
    ensures |poolMounts| == |PoolInfos(spec)|
    ensures forall i | 0 <= i < |PoolInfos(spec)| ::
              pod.volumes[|FIXED_VOLUMES| + i].name == poolMounts[i].name == MountName(PoolInfos(spec)[i].name)
  {
    hide FIXED_VOLUMES, FIXED_NAMES, MountName, PoolInfos;
    forall i | 0 <= i < |PoolInfos(spec)|
      ensures pod.volumes[|FIXED_VOLUMES| + i].name == poolMounts[i].name == MountName(PoolInfos(spec)[i].name)
    {
      assert Built(PoolInfos(spec)[i], poolVolumes[i], poolMounts[i], pod.pvDir[i]);
      assert pod.volumes[|FIXED_VOLUMES| + i] == poolVolumes[i];
    }
  }

  lemma MountsAreThere(spec: Spec, pod: Pod, poolVolumes: seq<Volume>, poolMounts: seq<VolumeMount>)
    requires MadeOf(pod, PoolInfos(spec), poolVolumes, poolMounts)
    ensures MountsResolve(pod)
  {
    hide FIXED_VOLUMES, FIXED_NAMES, MountName, PoolInfos, Built;
    PoolNames(spec, pod, poolVolumes, poolMounts);
    FixedVolumeNames();
    MountsFindVolumes(FIXED_VOLUMES, pod.volumes, poolMounts);
  }

  lemma SpecIsServed(spec: Spec, pod: Pod)
    requires Admission.Admissible(spec)
    requires |pod.pvDir| == |PoolInfos(spec)| && |pod.volumes| == 4 + |PoolInfos(spec)|
    requires forall i | 0 <= i < |PoolInfos(spec)| ::
               var info := PoolInfos(spec)[i];
               PoolServed(pod, i, info.name, info.path, info.snapshotProvider, info.shared)
    ensures ServesSpec(pod, spec)
  {
    hide PoolPlaced, PathsFit, Neat, MountName;
    if spec.pathConfig.Some? {
      SlashFreeIsNeat(spec, 0);
      assert PoolInfos(spec)[0] == PoolInfo("", spec.pathConfig.value.path, None, None, false);
    } else {
      forall i | 0 <= i < |spec.storagePools|
        ensures var p := spec.storagePools[i];
                var shared := p.template.Some? && ReadWriteMany in p.template.value.accessModes;
                PoolServed(pod, i, p.name, p.path, p.snapshotProvider, shared)
      {
        assert PoolInfos(spec)[i].name == spec.storagePools[i].name;
      }
    }
  }

  /** What the builders make of one pool. */
  predicate Built(info: PoolInfo, volume: Volume, mount: VolumeMount, entry: PoolInfo) {
    && volume == Volume(MountName(info.name), info.path)
    && mount == VolumeMount(MountName(info.name), "/" + MountName(info.name))
    && entry == Rewritten(info)
  }

  lemma MountsFindVolumes(fixed: seq<Volume>, volumes: seq<Volume>, poolMounts: seq<VolumeMount>)
    requires fixed <= volumes && |volumes| == |fixed| + |poolMounts|
    requires forall i | 0 <= i < |poolMounts| :: volumes[|fixed| + i].name == poolMounts[i].name
    ensures forall m | m in poolMounts :: exists v :: v in volumes && v.name == m.name
    ensures forall v | v in fixed :: v in volumes
  {
    forall m | m in poolMounts ensures exists v :: v in volumes && v.name == m.name {
      var i :| 0 <= i < |poolMounts| && poolMounts[i] == m;
      assert volumes[|fixed| + i] in volumes;
    }
    forall v | v in fixed ensures v in volumes {
      var i :| 0 <= i < |fixed| && fixed[i] == v;
      assert volumes[i] == v;
    }
  }
}
