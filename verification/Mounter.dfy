// The host mounter (cmd/mounter/main.go): the loop that keeps a storage pool bind-mounted at its
// path on the host, and the loop that unmounts it. The mount table lists mounts oldest first;
// a later mount at the same point hides an earlier one.

module Mounter {
  import opened CustomResource
  import opened Strings

  datatype Device = Device(major: nat, minor: nat)

  /** source is the path findmnt reports for the mount. */
  datatype Mount = Mount(device: Device, root: string, point: string, source: string)

  const KUBELET_PODS := "/var/lib/kubelet/pods/"

  // ------------------------------------------------------------------------ mount tables

  /** Index of the mount that is visible at a point, or -1. */
  function Top(mounts: seq<Mount>, point: string): (r: int)
    ensures -1 <= r < |mounts|
    ensures r >= 0 ==> mounts[r].point == point
    ensures forall i | r < i < |mounts| :: mounts[i].point != point
  {
    if mounts == [] then -1
    else if mounts[|mounts| - 1].point == point then |mounts| - 1
    else Top(mounts[..|mounts| - 1], point)
  }

  /** What binding source to target makes appear: whatever is visible at source. */
  function Bind(mounts: seq<Mount>, source: string, target: string): seq<Mount> {
    var i := Top(mounts, source);
    if i < 0 then mounts else mounts + [mounts[i].(point := target)]
  }

  function Unmount(mounts: seq<Mount>, target: string): (r: seq<Mount>)
    ensures |r| == if Top(mounts, target) < 0 then |mounts| else |mounts| - 1
  {
    var i := Top(mounts, target);
    if i < 0 then mounts else mounts[..i] + mounts[i + 1..]
  }

  /** Sources of the mounts stacked at a point, bottom first. */
  function Stack(mounts: seq<Mount>, point: string): seq<string> {
    if mounts == [] then []
    else
      var below := Stack(mounts[..|mounts| - 1], point);
      if mounts[|mounts| - 1].point == point then below + [mounts[|mounts| - 1].source] else below
  }

  /** The mounts at every other point. */
  function Elsewhere(mounts: seq<Mount>, point: string): seq<Mount> {
    if mounts == [] then []
    else
      var before := Elsewhere(mounts[..|mounts| - 1], point);
      if mounts[|mounts| - 1].point == point then before else before + [mounts[|mounts| - 1]]
  }

  /** A host: its mount table, and the source findmnt reports for the target when nothing is
      mounted right there. */
  class Host {
    var mounts: seq<Mount>
    const beneath: string

    constructor (mounts: seq<Mount>, beneath: string)
      ensures this.mounts == mounts && this.beneath == beneath
    {
      this.mounts := mounts;
      this.beneath := beneath;
    }

    /** Source of the filesystem a path is on. */
    function SourceAt(target: string): string
      reads this
    {
      var i := Top(mounts, target);
      if i < 0 then beneath else mounts[i].source
    }
  }

  // ---------------------------------------------------------------------------- mounting

  ghost predicate Bound(mounts: seq<Mount>, device: Device, target: string) {
    exists i :: 0 <= i < |mounts| && mounts[i].device == device && mounts[i].point == target
  }

  predicate PodMount(m: Mount, device: Device) {
    m.device == device && HasPrefix(m.point, KUBELET_PODS) && m.root == "/"
  }

  /** First kubelet pod mount of the whole device. */
  function FirstPodMount(mounts: seq<Mount>, device: Device): (r: nat)
    ensures r <= |mounts|
    ensures r < |mounts| ==> PodMount(mounts[r], device)
    ensures forall i | 0 <= i < r :: !PodMount(mounts[i], device)
  {
    if mounts == [] then 0
    else if PodMount(mounts[0], device) then 0
    else 1 + FirstPodMount(mounts[1..], device)
  }

  /** Mount table after one iteration; ok says whether the mount command works. */
  ghost function Iteration(mounts: seq<Mount>, device: Device, target: string, ok: bool): seq<Mount> {
    var i := FirstPodMount(mounts, device);
    if Bound(mounts, device, target) || i == |mounts| || !ok then mounts
    else Bind(mounts, mounts[i].point, target)
  }

  /** One iteration; exit says that the process gives up. */
  method BindMountPathOnHost(host: Host, device: Device, target: string, ok: bool) returns (exit: bool)
    modifies host
    ensures host.mounts == Iteration(old(host.mounts), device, target, ok)
    ensures exit <==> !Bound(old(host.mounts), device, target)
                      && FirstPodMount(old(host.mounts), device) == |old(host.mounts)|
    ensures exit <==> forall i | 0 <= i < |old(host.mounts)| ::
                        var m := old(host.mounts)[i];
                        m.device == device ==> m.point != target
                                               && !(m.root == "/" && "/var/lib/kubelet/pods/" <= m.point)
  {
    var bindSource: string, found := "", false;
    ghost var mounts := host.mounts;
    for i := 0 to |host.mounts|
      invariant host.mounts == mounts
      invariant !Bound(mounts[..i], device, target)
      invariant found ==> FirstPodMount(mounts, device) < i && bindSource == mounts[FirstPodMount(mounts, device)].point
      invariant !found ==> i <= FirstPodMount(mounts, device)
    {
      var m := host.mounts[i];
      if m.device == device {
        if m.point == target {
          return false;
        }
        if !found && HasPrefix(m.point, KUBELET_PODS) && m.root == "/" {
          bindSource, found := m.point, true;
        }
      }
    }
    assert mounts[..|mounts|] == mounts;
    if found {
      if ok { host.mounts := Bind(host.mounts, bindSource, target); }
      return false;
    }
    exit := true;
  }

  ghost function Iterations(mounts: seq<Mount>, device: Device, target: string, oks: seq<bool>): seq<Mount> {
    if oks == [] then mounts
    else Iteration(Iterations(mounts, device, target, oks[..|oks| - 1]), device, target, oks[|oks| - 1])
  }

  /** The mount loop for as many iterations as oks has entries. */
  method MountLoop(host: Host, device: Device, target: string, oks: seq<bool>)
    modifies host
    ensures host.mounts == Iterations(old(host.mounts), device, target, oks)
  {
    for i := 0 to |oks|
      invariant host.mounts == Iterations(old(host.mounts), device, target, oks[..i])
    {
      var exit := BindMountPathOnHost(host, device, target, oks[i]);
      assert oks[..i + 1][..i] == oks[..i];
    }
    assert oks[..|oks|] == oks;
  }

  /** The pod mount the loop binds is not hidden behind another device at the same point. */
  ghost predicate Unshadowed(mounts: seq<Mount>, device: Device) {
    var i := FirstPodMount(mounts, device);
    i == |mounts| || mounts[Top(mounts, mounts[i].point)].device == device
  }

  lemma {:induction false} FirstPodMountStays(mounts: seq<Mount>, more: seq<Mount>, device: Device)
    requires FirstPodMount(mounts, device) < |mounts|
    ensures FirstPodMount(mounts + more, device) == FirstPodMount(mounts, device)
  {
    var i := FirstPodMount(mounts, device);
    assert PodMount((mounts + more)[i], device);
    assert forall j | 0 <= j < i :: (mounts + more)[j] == mounts[j];
  }

  lemma TopAfterAppend(mounts: seq<Mount>, m: Mount, point: string)
    ensures Top(mounts + [m], point) == if m.point == point then |mounts| else Top(mounts, point)
  {
    assert (mounts + [m])[..|mounts|] == mounts;
  }

  /** However often the loop runs, and whichever mount commands fail, it adds at most one mount:
      the bind of the first pod mount of the device. */
  lemma {:induction false} AtMostOneMount(mounts: seq<Mount>, device: Device, target: string, oks: seq<bool>)
    requires Unshadowed(mounts, device)
    ensures var after := Iterations(mounts, device, target, oks);
            var i := FirstPodMount(mounts, device);
            if Bound(mounts, device, target) || i == |mounts| || true !in oks then after == mounts
            else after == mounts + [mounts[Top(mounts, mounts[i].point)].(point := target)]
  {
    if oks != [] {
      var init, last := oks[..|oks| - 1], oks[|oks| - 1];
      assert oks == init + [last];
      AtMostOneMount(mounts, device, target, init);
      var before := Iterations(mounts, device, target, init);
      if before != mounts {
        assert before[|mounts|].device == device && before[|mounts|].point == target;
      }
    }
  }

  /** A pod mount hidden behind another device is bound again and again. */
  lemma {:induction false} ShadowedMountsPileUp(mounts: seq<Mount>, device: Device, target: string, n: nat)
    requires !Unshadowed(mounts, device) && !Bound(mounts, device, target)
    ensures var m := mounts[Top(mounts, mounts[FirstPodMount(mounts, device)].point)].(point := target);
            Iterations(mounts, device, target, seq(n, _ => true)) == mounts + seq(n, _ => m)
  {
    var i := FirstPodMount(mounts, device);
    var m := mounts[Top(mounts, mounts[i].point)].(point := target);
    if n == 0 {
      assert mounts + seq(0, _ => m) == mounts;
    } else {
      assert seq(n, _ => true)[..n - 1] == seq(n - 1, _ => true);
      ShadowedMountsPileUp(mounts, device, target, n - 1);
      OneMorePile(mounts, device, target, m, n - 1);
      assert (mounts + seq(n - 1, _ => m)) + [m] == mounts + seq(n, _ => m);
    }
  }

  lemma {:induction false} OneMorePile(mounts: seq<Mount>, device: Device, target: string, m: Mount, n: nat)
    requires !Unshadowed(mounts, device) && !Bound(mounts, device, target)
    requires m == mounts[Top(mounts, mounts[FirstPodMount(mounts, device)].point)].(point := target)
    ensures Iteration(mounts + seq(n, _ => m), device, target, true) == (mounts + seq(n, _ => m)) + [m]
  {
    var i, before := FirstPodMount(mounts, device), mounts + seq(n, _ => m);
    FirstPodMountStays(mounts, seq(n, _ => m), device);
    assert mounts[i].point != target;
    TopAfterAppends(mounts, m, n, mounts[i].point);
    assert forall j | 0 <= j < |before| :: before[j] == if j < |mounts| then mounts[j] else m;
    assert before[Top(mounts, mounts[i].point)].(point := target) == m;
  }

  lemma {:induction false} TopAfterAppends(mounts: seq<Mount>, m: Mount, n: nat, point: string)
    requires m.point != point
    ensures Top(mounts + seq(n, _ => m), point) == Top(mounts, point)
  {
    if n == 0 {
      assert mounts + seq(0, _ => m) == mounts;
    } else {
      TopAfterAppends(mounts, m, n - 1, point);
      assert mounts + seq(n, _ => m) == (mounts + seq(n - 1, _ => m)) + [m];
      TopAfterAppend(mounts + seq(n - 1, _ => m), m, point);
    }
  }

  // ---------------------------------------------------------------------- block volumes

  /** What a path is on the host. */
  datatype PathKind = Absent | Directory | BlockDevice | Other

  const GLOBAL_MOUNT := "/globalmount"

  predicate Contains(s: string, part: string) {
    exists i | 0 <= i <= |s| :: HasPrefix(s[i..], part)
  }

  /** Where a source is mounted, oldest first. */
  function TargetsOf(mounts: seq<Mount>, source: string): seq<string> {
    if mounts == [] then []
    else (if mounts[0].source == source then [mounts[0].point] else []) + TargetsOf(mounts[1..], source)
  }

  /** Global CSI mounts among them, without the mounts of single pods. */
  function GlobalMounts(targets: seq<string>): seq<string> {
    if targets == [] then [] else (if Contains(targets[0], GLOBAL_MOUNT) then [targets[0]]
                                   else []) + GlobalMounts(targets[1..])
  }

  /** A target is kept exactly when its path names a global mount. */
  lemma {:induction false} GlobalMountsExact(targets: seq<string>, target: string)
    ensures target in GlobalMounts(targets) <==> target in targets && Contains(target, GLOBAL_MOUNT)
  {
    if targets != [] { GlobalMountsExact(targets[1..], target); }
  }

  /** The path to mount: the device itself if the host has it, otherwise the one place, or the one
      global place, where its source is mounted. */
  function BlockPath(mounts: seq<Mount>, source: string, kind: string -> PathKind): Option<string> {
    var targets := TargetsOf(mounts, source);
    if kind(source) != Absent then Some(source)
    else if |targets| == 1 then Some(targets[0])
    else
      var global := GlobalMounts(targets);
      if |targets| > 1 && |global| == 1 then Some(global[0]) else None
  }

  ghost function From(source: string): Mount -> bool {
    (m: Mount) => m.source == source
  }

  ghost function GlobalFrom(source: string): Mount -> bool {
    (m: Mount) => m.source == source && Contains(m.point, "/globalmount")
  }

  /** The points of the mounts of some kind. */
  ghost function Picks(mounts: seq<Mount>, p: Mount -> bool): seq<string> {
    if mounts == [] then [] else (if p(mounts[0]) then [mounts[0].point] else []) + Picks(mounts[1..], p)
  }

  /** The one mount of its kind. */
  ghost predicate Sole(mounts: seq<Mount>, p: Mount -> bool, i: int) {
    0 <= i < |mounts| && p(mounts[i]) && forall j | 0 <= j < |mounts| && j != i :: !p(mounts[j])
  }

  lemma {:induction false} NoPicks(mounts: seq<Mount>, p: Mount -> bool)
    ensures Picks(mounts, p) == [] <==> forall j | 0 <= j < |mounts| :: !p(mounts[j])
  {
    if mounts != [] {
      NoPicks(mounts[1..], p);
      assert forall j | 1 <= j < |mounts| :: mounts[j] == mounts[1..][j - 1];
    }
  }

  /** The first mount is of the kind, or the sole one comes later. */
  lemma SoleOneOn(mounts: seq<Mount>, p: Mount -> bool, t: string)
    requires mounts != []
    ensures (exists i :: Sole(mounts, p, i) && mounts[i].point == t) <==>
            if p(mounts[0]) then mounts[0].point == t && forall j | 0 <= j < |mounts| - 1 :: !p(mounts[1..][j])
            else exists i :: Sole(mounts[1..], p, i) && mounts[1..][i].point == t
  {
    var rest := mounts[1..];
    assert forall j | 1 <= j < |mounts| :: mounts[j] == rest[j - 1];
    if p(mounts[0]) {
      if forall j | 0 <= j < |rest| :: !p(rest[j]) { assert Sole(mounts, p, 0); }
      if i :| Sole(mounts, p, i) { assert i == 0; }
    } else {
      forall i | Sole(rest, p, i) ensures Sole(mounts, p, i + 1) { }
      forall i | Sole(mounts, p, i) ensures Sole(rest, p, i - 1) { }
    }
  }

  lemma {:induction false} OnePick(mounts: seq<Mount>, p: Mount -> bool, t: string)
    ensures Picks(mounts, p) == [t] <==> exists i :: Sole(mounts, p, i) && mounts[i].point == t
  {
    if mounts != [] {
      hide Sole;
      SoleOneOn(mounts, p, t);
      OnePick(mounts[1..], p, t);
      NoPicks(mounts[1..], p);
      if p(mounts[0]) {
        assert Picks(mounts, p)[0] == mounts[0].point && Picks(mounts, p)[1..] == Picks(mounts[1..], p);
        if mounts[0].point == t && Picks(mounts[1..], p) == [] { assert Picks(mounts, p) == [t]; }
      } else {
        assert Picks(mounts, p) == Picks(mounts[1..], p);
      }
    }
  }

  lemma {:induction false} TargetsArePicks(mounts: seq<Mount>, source: string)
    ensures TargetsOf(mounts, source) == Picks(mounts, From(source))
    ensures GlobalMounts(TargetsOf(mounts, source)) == Picks(mounts, GlobalFrom(source))
  {
    if mounts != [] {
      TargetsArePicks(mounts[1..], source);
      var rest := TargetsOf(mounts[1..], source);
      assert ([mounts[0].point] + rest)[1..] == rest && [] + rest == rest;
    }
  }

  /** Which path is mounted: the device itself if the host has it; and otherwise where the source is mounted, if
      that is in one place only, or if it is in several of which one alone is a global CSI mount. */
  lemma BlockPathMeans(mounts: seq<Mount>, source: string, kind: string -> PathKind, t: string)
    ensures var from, global := From(source), GlobalFrom(source);
            BlockPath(mounts, source, kind) == Some(t) <==>
            if kind(source) != Absent then t == source
            else (exists i :: Sole(mounts, from, i) && mounts[i].point == t)
                 || ((exists i :: Sole(mounts, global, i) && mounts[i].point == t)
                     && !exists i :: Sole(mounts, from, i))
  {
    var from, global := From(source), GlobalFrom(source);
    var targets := TargetsOf(mounts, source);
    TargetsArePicks(mounts, source);
    OnePick(mounts, from, t);
    OnePick(mounts, global, t);
    if |targets| == 1 { OnePick(mounts, from, targets[0]); }
    if i :| Sole(mounts, from, i) { OnePick(mounts, from, mounts[i].point); }
    NoPicks(mounts, from);
    NoPicks(mounts, global);
  }

  method FilterGlobalMounts(targets: seq<string>) returns (r: seq<string>)
    ensures r == GlobalMounts(targets)
  {
    r := [];
    for i := 0 to |targets|
      invariant r + GlobalMounts(targets[i..]) == GlobalMounts(targets)
    {
      assert targets[i..] == [targets[i]] + targets[i + 1..];
      if Contains(targets[i], GLOBAL_MOUNT) { r := r + [targets[i]]; }
    }
  }

  /** The mount that the block path leads to. */
  function BlockMount(mounts: seq<Mount>, path: string, device: Device, target: string,
                      kind: string -> PathKind): seq<Mount> {
    if kind(path) == Directory then Bind(mounts, path, target)
    else if kind(path) == BlockDevice then mounts + [Mount(device, "/", target, path)]
    else mounts
  }

  /** Mount table after one iteration for a block volume. */
  function BlockIteration(mounts: seq<Mount>, seen: string, source: string, device: Device, target: string,
                          kind: string -> PathKind, ok: bool): seq<Mount> {
    var path := BlockPath(mounts, source, kind);
    if seen == source || path.None? || !ok then mounts else BlockMount(mounts, path.value, device, target, kind)
  }

  /** One iteration; exit says that the process gives up, because it cannot tell what to mount. */
  method MountIfNotMounted(host: Host, source: string, device: Device, target: string, kind: string -> PathKind,
                           ok: bool) returns (exit: bool)
    modifies host
    ensures host.mounts == BlockIteration(old(host.mounts), old(host.SourceAt(target)), source, device, target, kind,
                                          ok)
    ensures exit <==> old(host.SourceAt(target)) != source
                      && (BlockPath(old(host.mounts), source, kind).None?
                          || kind(BlockPath(old(host.mounts), source, kind).value) == Absent)
    ensures old(host.SourceAt(target)) == source ==> host.mounts == old(host.mounts)
    ensures ok && old(host.SourceAt(target)) != source && BlockPath(old(host.mounts), source, kind).Some? ==>
              var path, was := BlockPath(old(host.mounts), source, kind).value, old(host.mounts);
              && (kind(path) == BlockDevice ==> host.mounts == was + [Mount(device, "/", target, path)])
              && (kind(path) == Directory && Top(was, path) >= 0 ==>
                    host.mounts == was + [was[Top(was, path)].(point := target)])

  {
    var path := source;
    if host.SourceAt(target) == source { return false; }
    if kind(path) == Absent {
      var targets := TargetsOf(host.mounts, source);
      if |targets| == 0 { return true; }
      if |targets| > 1 {
        targets := FilterGlobalMounts(targets);
        if |targets| != 1 { return true; }
      }
      path := targets[0];
    }
    exit := kind(path) == Absent;
    if ok && kind(path) == Directory { host.mounts := Bind(host.mounts, path, target); }
    if ok && kind(path) == BlockDevice { host.mounts := host.mounts + [Mount(device, "/", target, path)]; }
  }

  function SourceSeen(mounts: seq<Mount>, beneath: string, target: string): string {
    if Top(mounts, target) < 0 then beneath else mounts[Top(mounts, target)].source
  }

  /** Mounting makes the target show what was mounted: the device, or what is visible at the
      path. */
  lemma BlockMountShows(mounts: seq<Mount>, path: string, device: Device, target: string, kind: string -> PathKind,
                        beneath: string)
    requires BlockMount(mounts, path, device, target, kind) != mounts
    ensures SourceSeen(BlockMount(mounts, path, device, target, kind), beneath, target) ==
            if kind(path) == Directory then mounts[Top(mounts, path)].source else path
  {
    if kind(path) == Directory {
      TopAfterAppend(mounts, mounts[Top(mounts, path)].(point := target), target);
    } else {
      TopAfterAppend(mounts, Mount(device, "/", target, path), target);
    }
  }

  /** After an iteration that mounted something, the next one has nothing to do exactly when what
      it mounted shows the source of the volume. */
  lemma BlockMountSettles(mounts: seq<Mount>, beneath: string, source: string, device: Device, target: string,
                          kind: string -> PathKind)
    requires BlockIteration(mounts, SourceSeen(mounts, beneath, target), source, device, target, kind, true) != mounts
    ensures var after := BlockIteration(mounts, SourceSeen(mounts, beneath, target), source, device, target, kind,
                                        true);
            var path := BlockPath(mounts, source, kind).value;
            SourceSeen(after, beneath, target) == source <==>
            (if kind(path) == Directory then mounts[Top(mounts, path)].source == source else path == source)
  {
    BlockMountShows(mounts, BlockPath(mounts, source, kind).value, device, target, kind, beneath);
  }

  ghost function BlockIterations(mounts: seq<Mount>, beneath: string, source: string,
                                 device: Device, target: string, kind: string -> PathKind, oks: seq<bool>): seq<Mount> {
    if oks == [] then mounts
    else
      var before := BlockIterations(mounts, beneath, source, device, target, kind, oks[..|oks| - 1]);
      BlockIteration(before, SourceSeen(before, beneath, target), source, device, target, kind, oks[|oks| - 1])
  }

  /** Then any number of iterations adds at most one mount, the first that works. */
  lemma {:induction false} AtMostOneBlockMount(mounts: seq<Mount>, beneath: string, source: string, device: Device,
                                               target: string, kind: string -> PathKind, oks: seq<bool>)
    requires BlockPath(mounts, source, kind).Some? ==>
               var path := BlockPath(mounts, source, kind).value;
               if kind(path) == Directory then Top(mounts, path) >= 0 && mounts[Top(mounts, path)].source == source
               else path == source
    ensures BlockIterations(mounts, beneath, source, device, target, kind, oks) ==
            if true in oks then BlockIteration(mounts, SourceSeen(mounts, beneath, target), source, device, target,
                                               kind, true) else mounts
  {
    if oks != [] {
      var init, last := oks[..|oks| - 1], oks[|oks| - 1];
      assert oks == init + [last];
      AtMostOneBlockMount(mounts, beneath, source, device, target, kind, init);
      var once := BlockIteration(mounts, SourceSeen(mounts, beneath, target), source, device, target, kind, true);
      if once != mounts { BlockMountSettles(mounts, beneath, source, device, target, kind); }
    }
  }

  // -------------------------------------------------------------------------- unmounting

  /** One attempt: true when the source seen at the path did not change. busy says that the
      umount command fails although something is mounted. */
  method UnmountPath(host: Host, target: string, busy: bool) returns (done: bool)
    modifies host
    ensures host.mounts == if busy then old(host.mounts) else Unmount(old(host.mounts), target)
    ensures done <==> old(host.SourceAt(target)) == host.SourceAt(target)
  {
    var before := host.SourceAt(target);
    if !busy { host.mounts := Unmount(host.mounts, target); }
    var after := host.SourceAt(target);
    done := before == after;
  }

  /** How many mounts the loop leaves of a stack: it stops at the first attempt that changes
      nothing visible. */
  function Leftover(stack: seq<string>, beneath: string, busy: seq<bool>): (r: nat)
    ensures r <= |stack|
  {
    if stack == [] then 0
    else if busy != [] && busy[0] then |stack|
    else
      var rest := stack[..|stack| - 1];
      var below := if rest == [] then beneath else rest[|rest| - 1];
      if below == stack[|stack| - 1] then |rest|
      else Leftover(rest, beneath, if busy == [] then [] else busy[1..])
  }

  lemma {:induction false} StackTop(mounts: seq<Mount>, point: string)
    ensures Top(mounts, point) < 0 <==> Stack(mounts, point) == []
    ensures Top(mounts, point) >= 0 ==>
              mounts[Top(mounts, point)].source == Stack(mounts, point)[|Stack(mounts, point)| - 1]
  {
    if mounts != [] { StackTop(mounts[..|mounts| - 1], point); }
  }

  lemma {:induction false} StackAfterUnmount(mounts: seq<Mount>, target: string)
    requires Top(mounts, target) >= 0
    ensures var s := Stack(mounts, target);
            |s| > 0 && Stack(Unmount(mounts, target), target) == s[..|s| - 1]
    ensures Elsewhere(Unmount(mounts, target), target) == Elsewhere(mounts, target)
  {
    var init, last := mounts[..|mounts| - 1], mounts[|mounts| - 1];
    if last.point == target {
      assert Unmount(mounts, target) == init;
    } else {
      StackAfterUnmount(init, target);
      UnmountBelow(init, last, target);
      assert init + [last] == mounts;
      StackAppend(init, last, target);
      StackAppend(Unmount(init, target), last, target);
    }
  }

  lemma UnmountBelow(mounts: seq<Mount>, m: Mount, target: string)
    requires m.point != target && Top(mounts, target) >= 0
    ensures Unmount(mounts + [m], target) == Unmount(mounts, target) + [m]
  {
    TopAfterAppend(mounts, m, target);
    CutSnoc(mounts, m, Top(mounts, target));
  }

  lemma CutSnoc<T>(s: seq<T>, x: T, i: nat)
    requires i < |s|
    ensures (s + [x])[..i] + (s + [x])[i + 1..] == (s[..i] + s[i + 1..]) + [x]
  {
    assert (s + [x])[i + 1..] == s[i + 1..] + [x];
  }

  lemma StackAppend(mounts: seq<Mount>, m: Mount, point: string)
    requires m.point != point
    ensures Stack(mounts + [m], point) == Stack(mounts, point)
    ensures Elsewhere(mounts + [m], point) == Elsewhere(mounts, point) + [m]
  {
    assert (mounts + [m])[..|mounts|] == mounts;
  }

  /** The unmount loop. It always ends; what it leaves at the target is the bottom part of the
      stack that Leftover names, and it touches no other mount. */
  method UnmountLoop(host: Host, target: string, busy: seq<bool>)
    modifies host
    ensures var stack := old(Stack(host.mounts, target));
            Stack(host.mounts, target) == stack[..Leftover(stack, host.beneath, busy)]
    ensures Elsewhere(host.mounts, target) == old(Elsewhere(host.mounts, target))
  {
    var todo := busy;
    var done := false;
    ghost var all := Stack(host.mounts, target);
    while !done
      invariant Stack(host.mounts, target) <= all
      invariant Elsewhere(host.mounts, target) == old(Elsewhere(host.mounts, target))
      invariant !done ==> Leftover(Stack(host.mounts, target), host.beneath, todo) == Leftover(all, host.beneath, busy)
      invariant done ==> |Stack(host.mounts, target)| == Leftover(all, host.beneath, busy)
      decreases !done, |Stack(host.mounts, target)|
    {
      var fails := todo != [] && todo[0];
      ghost var was := host.mounts;
      StackTop(was, target);
      if Top(was, target) >= 0 { StackAfterUnmount(was, target); }
      done := UnmountPath(host, target, fails);
      StackTop(host.mounts, target);
      todo := if todo == [] then [] else todo[1..];
    }
  }

  /** Without failing umount commands, nothing is left exactly when no two neighbours in the
      stack have the same source. */
  lemma {:induction false} EverythingUnmounted(stack: seq<string>, beneath: string)
    ensures Leftover(stack, beneath, []) == 0 <==> forall i | 0 < i < |stack| :: stack[i] != stack[i - 1]
  {
    if |stack| > 1 { EverythingUnmounted(stack[..|stack| - 1], beneath); }
  }

  lemma {:induction false} NothingThere(mounts: seq<Mount>, target: string)
    requires Stack(mounts, target) == []
    ensures Elsewhere(mounts, target) == mounts
    ensures Top(mounts, target) < 0
  {
    if mounts != [] { NothingThere(mounts[..|mounts| - 1], target); }
  }

  /** What is stacked at the target once the mount loop ran: at most one source more. */
  ghost function Stacked(mounts: seq<Mount>, device: Device, target: string, oks: seq<bool>): seq<string> {
    var i := FirstPodMount(mounts, device);
    Stack(mounts, target) +
    if Bound(mounts, device, target) || i == |mounts| || true !in oks then []
    else [mounts[Top(mounts, mounts[i].point)].source]
  }

  lemma MountingStacks(mounts: seq<Mount>, device: Device, target: string, oks: seq<bool>)
    requires Unshadowed(mounts, device)
    ensures var after := Iterations(mounts, device, target, oks);
            Stack(after, target) == Stacked(mounts, device, target, oks)
            && Elsewhere(after, target) == Elsewhere(mounts, target)
  {
    AtMostOneMount(mounts, device, target, oks);
    var after := Iterations(mounts, device, target, oks);
    if after != mounts { assert after[..|mounts|] == mounts; }
  }

  /** The unmount loop gives the old stack back exactly when there was none or its top shows the source
      that was mounted over it; with nothing mounted over it, it takes at least one mount away. */
  lemma OldStackBack(stack: seq<string>, source: string, beneath: string)
    ensures Leftover(stack + [source], beneath, []) == |stack| <==> stack == [] || stack[|stack| - 1] == source
    ensures Leftover(stack, beneath, []) == |stack| <==> stack == []
  {
    assert (stack + [source])[..|stack|] == stack;
  }

  /** Mounting and then unmounting, for any number of iterations and any failing commands: nothing
      elsewhere changes, and of the stack at the target the bottom part that Leftover names is left. Where
      nothing was mounted at the target and no umount fails, the mount table is what it was. */
  method MountThenUnmount(host: Host, device: Device, target: string, oks: seq<bool>, busy: seq<bool>)
    requires Unshadowed(host.mounts, device)
    modifies host
    ensures var stack := Stacked(old(host.mounts), device, target, oks);
            Stack(host.mounts, target) == stack[..Leftover(stack, host.beneath, busy)]
    ensures Elsewhere(host.mounts, target) == old(Elsewhere(host.mounts, target))
    ensures old(Stack(host.mounts, target)) == [] && busy == [] ==> host.mounts == old(host.mounts)
  {
    ghost var was := host.mounts;
    MountingStacks(was, device, target, oks);
    MountLoop(host, device, target, oks);
    EverythingUnmounted(Stacked(was, device, target, oks), host.beneath);
    UnmountLoop(host, target, busy);
    if Stack(was, target) == [] && busy == [] {
      NothingThere(was, target);
      NothingThere(host.mounts, target);
    }
  }
}
