// Kubernetes object names (util.go, storagepool.go, daemonset.go). A string is a sequence of
// bytes, one char each.

module Names {

  // --------------------------------------------------------------------------- the hash

  function HexDigit(d: nat): char
    requires d < 16
  {
    "0123456789abcdef"[d]
  }

  function Hex(n: nat, digits: nat): (r: string)
    ensures |r| == digits
    ensures forall c | c in r :: c != '-'
  {
    if digits == 0 then "" else Hex(n / 16, digits - 1) + [HexDigit(n % 16)]
  }

  const FNV_OFFSET: nat := 2166136261
  const FNV_PRIME: nat := 16777619
  const TWO32: nat := 0x1_0000_0000

  function XorByte(h: nat, c: char): nat {
    h - h % 256 + (((h % 256) as bv8) ^ ((c as int % 256) as bv8)) as nat
  }

  /** 32-bit FNV-1a. */
  function Fnv1a(s: string): (h: nat)
    ensures h < TWO32
  {
    if s == "" then FNV_OFFSET else XorByte(Fnv1a(s[..|s| - 1]), s[|s| - 1]) * FNV_PRIME % TWO32
  }

  /** The 8 hexadecimal digits of the hash. */
  function Hash(s: string): (r: string)
    ensures |r| == 8
    ensures forall c | c in r :: c != '-'
  {
    Hex(Fnv1a(s), 8)
  }

  function DigitValue(c: char): int {
    if '0' <= c <= '9' then c as int - '0' as int else c as int - 'a' as int + 10
  }

  /** The number that hexadecimal digits stand for, the last digit being the lowest. */
  function FromHex(s: string): int {
    if s == "" then 0 else FromHex(s[..|s| - 1]) * 16 + DigitValue(s[|s| - 1])
  }

  ghost function Power16(n: nat): nat {
    if n == 0 then 1 else 16 * Power16(n - 1)
  }

  lemma DigitGivesBack(d: nat)
    requires d < 16
    ensures DigitValue(HexDigit(d)) == d
  {
  }

  /** The digits give the number back if it takes no more of them. */
  lemma {:induction false} HexGivesBack(n: nat, digits: nat)
    requires n < Power16(digits)
    ensures FromHex(Hex(n, digits)) == n
  {
    hide HexDigit, DigitValue;
    if digits > 0 {
      HexGivesBack(n / 16, digits - 1);
      DigitGivesBack(n % 16);
      assert Hex(n, digits)[..digits - 1] == Hex(n / 16, digits - 1);
    }
  }

  lemma HashOneMore(s: string, c: char)
    ensures Fnv1a(s + [c]) == XorByte(Fnv1a(s), c) * FNV_PRIME % TWO32
  {
    assert (s + [c])[..|s|] == s;
  }

  lemma HashOfNothing()
    ensures Fnv1a("") == 0x811C_9DC5
  {
  }

  lemma XorVector()
    ensures XorByte(0x811C_9DC5, 'a') == 0x811C_9DA4
  {
    var x: bv8, y: bv8 := 0xC5, 0x61;
    assert x ^ y == 0xA4;
  }

  /** The published values of the hash for two texts. */
  lemma HashVectors()
    ensures Fnv1a("") == 0x811C_9DC5 && Fnv1a("a") == 0xE40C_292C
  {
    hide Fnv1a, XorByte;
    HashOfNothing();
    HashOneMore("", 'a');
    assert "" + ['a'] == "a";
    XorVector();
  }

  /** The hash in a name is the number, in hexadecimal. */
  lemma HashIsHex(s: string)
    ensures FromHex(Hash(s)) == Fnv1a(s)
  {
    hide Fnv1a;
    assert Power16(8) == TWO32;
    HexGivesBack(Fnv1a(s), 8);
  }

  // -------------------------------------------------------------------- name shortening

  function Min(a: int, b: int): int { if a < b then a else b }

  function Max(a: int, b: int): int { if a < b then b else a }

  /** base-suffix, shortened around a hash to at most maxLength. */
  function ResourceName(base: string, suffix: string, maxLength: int): string {
    if maxLength <= 0 then ""
    else
      var name := base + "-" + suffix;
      if |name| <= maxLength then name
      else
        var baseLength := maxLength - 10 - |suffix|;
        if baseLength < 0 then
          var short := base[0..Min(|base|, Max(0, maxLength - 9))] + "-" + Hash(name);
          short[..Min(maxLength, |short|)]
        else base[0..baseLength] + "-" + Hash(base) + "-" + suffix
  }

  /** Shortening never slices out of range (the function is total), never exceeds the limit,
      keeps names that fit, and uses the limit in full when it cuts the base. */
  lemma ShorteningIsTight(base: string, suffix: string, maxLength: int)
    ensures |ResourceName(base, suffix, maxLength)| <= Max(0, maxLength)
    ensures |base| + 1 + |suffix| <= maxLength ==> ResourceName(base, suffix, maxLength) == base + "-" + suffix
    ensures |suffix| + 10 <= maxLength < |base| + 1 + |suffix| ==>
              var r := ResourceName(base, suffix, maxLength);
              |r| == maxLength && r == base[..maxLength - 10 - |suffix|] + "-" + Hash(base) + "-" + suffix
    ensures 0 < maxLength < |suffix| + 10 && maxLength <= |base| + 9 && maxLength < |base| + 1 + |suffix| ==>
              |ResourceName(base, suffix, maxLength)| == maxLength
  {
  }

  // ------------------------------------------------------------------- names of this operator

  const POOL_PREFIX := "hpp-pool"
  const CLEANUP_PREFIX := "cleanup-pool"
  const MAX_NAME := 63

  function PairName(pool: string, node: string): string {
    pool + "-" + node
  }

  /** Name of the deployment that mounts a pool on a node. */
  function DeploymentName(pool: string, node: string): string {
    ResourceName(POOL_PREFIX, PairName(pool, node), MAX_NAME)
  }

  function ClaimName(pool: string, node: string): string {
    ResourceName(POOL_PREFIX, PairName(pool, node), MAX_NAME)
  }

  function SharedClaimName(pool: string): string {
    ResourceName(POOL_PREFIX, pool + "-shared", MAX_NAME)
  }

  /** Name of the job that unmounts a pool on a node. */
  function JobName(pool: string, node: string): string {
    ResourceName(CLEANUP_PREFIX, PairName(pool, node), MAX_NAME)
  }

  /** Label value shared by the deployments and claims of a pool. */
  function PoolLabel(pool: string): string {
    ResourceName(pool, "hpp", MAX_NAME)
  }

  /** Name of the volume that holds a pool inside the CSI pod; the legacy pool has no name. */
  function MountName(pool: string): string {
    ResourceName(if pool == "" then "csi" else pool, "data-dir", MAX_NAME)
  }

  const ADMITTED_LENGTH := 50

  lemma AppendCancels(a: string, b: string, tail: string)
    requires a + tail == b + tail
    ensures a == b
  {
    assert a == (a + tail)[..|a|];
    assert |a + tail| == |b + tail|;
    assert b == (b + tail)[..|b|];
  }

  lemma PrependCancels(head: string, a: string, b: string)
    requires head + a == head + b
    ensures a == b
  {
    assert a == (head + a)[|head|..];
    assert b == (head + b)[|head|..];
  }

  /** Two admitted pools never share a label or a mount. */
  lemma PoolNamesInjective(p: string, q: string)
    requires 0 < |p| <= ADMITTED_LENGTH && 0 < |q| <= ADMITTED_LENGTH
    ensures PoolLabel(p) == PoolLabel(q) ==> p == q
    ensures MountName(p) == MountName(q) ==> p == q
    ensures PoolLabel(p) == p + "-hpp" && MountName(p) == p + "-data-dir"
  {
    assert p + "-" + "hpp" == p + "-hpp" && q + "-" + "hpp" == q + "-hpp";
    assert p + "-" + "data-dir" == p + "-data-dir" && q + "-" + "data-dir" == q + "-data-dir";
    if PoolLabel(p) == PoolLabel(q) { AppendCancels(p, q, "-hpp"); }
    if MountName(p) == MountName(q) { AppendCancels(p, q, "-data-dir"); }
  }

  // ------------------------------------------------------- when pair names collide

  /** The pair fits the deployment name without a hash. */
  predicate Fits(pool: string, node: string) {
    |POOL_PREFIX| + 1 + |PairName(pool, node)| <= MAX_NAME
  }

  lemma DeploymentNameShape(pool: string, node: string)
    ensures Fits(pool, node) ==> DeploymentName(pool, node) == POOL_PREFIX + "-" + PairName(pool, node)
    ensures !Fits(pool, node) ==>
              DeploymentName(pool, node) == POOL_PREFIX + "-" + Hash(POOL_PREFIX + "-" + PairName(pool, node))
  {
  }

  /** A claim keeps the text of its pool, and of its node unless it is shared, as long as it fits. */
  lemma ClaimNameShape(pool: string, node: string)
    ensures var s, r := pool + "-" + node, ClaimName(pool, node);
            if |s| <= 54 then r == "hpp-pool-" + s else r == "hpp-pool-" + Hash("hpp-pool-" + s)
    ensures var s, r := pool + "-shared", SharedClaimName(pool);
            if |pool| <= 47 then r == "hpp-pool-" + s else r == "hpp-pool-" + Hash("hpp-pool-" + s)
  {
    hide Hash;
    assert POOL_PREFIX + "-" == "hpp-pool-";
    assert "hpp-pool" + "-" + (pool + "-" + node) == "hpp-pool-" + (pool + "-" + node);
    assert "hpp-pool" + "-" + (pool + "-shared") == "hpp-pool-" + (pool + "-shared");
  }

  /** q continues p with a dash: the one way two pool names can be confused. */
  predicate DashExtends(q: string, p: string) {
    |q| > |p| && q[..|p|] == p && q[|p|] == '-'
  }

  /** Two pairs have the same text exactly when one pool name is a dash extension of the other
      and the node names make up the difference. */
  lemma PairNamesCollide(p: string, n: string, q: string, m: string)
    requires |p| <= |q| && (p, n) != (q, m)
    ensures PairName(p, n) == PairName(q, m) <==> DashExtends(q, p) && n == q[|p| + 1..] + "-" + m
  {
    var x, y := PairName(p, n), PairName(q, m);
    if DashExtends(q, p) && n == q[|p| + 1..] + "-" + m {
      assert q == p + "-" + q[|p| + 1..];
      assert x == y;
    }
    if x == y {
      assert n == x[|p| + 1..] && m == y[|q| + 1..];
      assert p == x[..|p|] && q == y[..|q|];
      assert x[|p|] == '-';
      assert |p| < |q| ==> n == q[|p| + 1..] + "-" + m;
    }
  }

  ghost predicate NoConfusion(pools: set<string>) {
    forall p, q | p in pools && q in pools :: !DashExtends(q, p)
  }

  /** Every pair of a pool and a node whose deployment name fits has a name of its own. */
  ghost predicate DeploymentsDistinct(pools: set<string>) {
    forall p, n, q, m | p in pools && q in pools && Fits(p, n) && Fits(q, m)
                        && DeploymentName(p, n) == DeploymentName(q, m) ::
      p == q && n == m
  }

  lemma PairsDistinct(pools: set<string>, p: string, n: string, q: string, m: string)
    requires NoConfusion(pools) && p in pools && q in pools && PairName(p, n) == PairName(q, m)
    ensures p == q && n == m
  {
    if (p, n) != (q, m) {
      if |p| <= |q| { PairNamesCollide(p, n, q, m); } else { PairNamesCollide(q, m, p, n); }
    }
  }

  /** Deployment names are distinct on every set of nodes exactly when no pool name is a dash
      extension of another: what an administrator has to check. */
  lemma DistinctIffNoConfusion(pools: set<string>)
    requires forall p | p in pools :: |p| <= ADMITTED_LENGTH
    ensures DeploymentsDistinct(pools) <==> NoConfusion(pools)
  {
    if NoConfusion(pools) {
      forall p, n, q, m | p in pools && q in pools && Fits(p, n) && Fits(q, m)
                          && DeploymentName(p, n) == DeploymentName(q, m)
        ensures p == q && n == m
      {
        DeploymentNameShape(p, n);
        DeploymentNameShape(q, m);
        PrependCancels(POOL_PREFIX + "-", PairName(p, n), PairName(q, m));
        PairsDistinct(pools, p, n, q, m);
      }
    }
    forall p, q | p in pools && q in pools && DashExtends(q, p) ensures !DeploymentsDistinct(pools) {
      var n := q[|p| + 1..] + "-" + "n";
      assert (p, n) != (q, "n");
      PairNamesCollide(p, n, q, "n");
      assert Fits(q, "n") && Fits(p, n) && DeploymentName(p, n) == DeploymentName(q, "n");
    }
  }

  /** No other pair at all, hashed or not, has the name of a pair that fits. */
  lemma DeploymentNamesDistinct(names: set<string>, p: string, n: string, q: string, m: string)
    requires NoConfusion(names) && p in names && q in names && Fits(p, n)
    requires DeploymentName(p, n) == DeploymentName(q, m)
    ensures p == q && n == m
  {
    DeploymentNameShape(p, n);
    DeploymentNameShape(q, m);
    if Fits(q, m) {
      PrependCancels(POOL_PREFIX + "-", PairName(p, n), PairName(q, m));
      PairsDistinct(names, p, n, q, m);
    } else {
      PrependCancels(POOL_PREFIX + "-", PairName(p, n), Hash(POOL_PREFIX + "-" + PairName(q, m)));
      HashIsNoPair(POOL_PREFIX + "-" + PairName(q, m), p, n);
    }
  }

  lemma HashIsNoPair(s: string, p: string, n: string)
    ensures Hash(s) != PairName(p, n)
  {
    hide Hash, Hex, Fnv1a;
    assert '-' !in Hash(s);
    assert PairName(p, n)[|p|] == '-' && '-' in PairName(p, n);
  }

  /** A job name keeps the text of the pair up to 53 characters, behind a prefix that depends on the
      length alone, and is the hash of it beyond. */
  lemma JobNameShape(pool: string, node: string)
    ensures var s, r := PairName(pool, node), JobName(pool, node);
            if |s| <= 50 then r == CLEANUP_PREFIX + "-" + s
            else if |s| <= 53 then r == CLEANUP_PREFIX[..53 - |s|] + "-" + Hash(CLEANUP_PREFIX) + "-" + s
                                   && |r| == MAX_NAME
            else r == CLEANUP_PREFIX + "-" + Hash(CLEANUP_PREFIX + "-" + s)
  {
    hide Hash;
    var s := PairName(pool, node);
    assert CLEANUP_PREFIX[..|CLEANUP_PREFIX|] == CLEANUP_PREFIX;
  }

  /** The same check makes the job names of pairs that keep their text distinct from all others. */
  lemma JobsDistinct(pools: set<string>, p: string, n: string, q: string, m: string)
    requires NoConfusion(pools) && p in pools && q in pools && |PairName(p, n)| <= 53 && JobName(p, n) == JobName(q, m)
    ensures p == q && n == m
  {
    hide Hash, JobName, NoConfusion;
    var s, t := PairName(p, n), PairName(q, m);
    JobNameShape(p, n);
    JobNameShape(q, m);
    SameJobSamePair(p, n, q, m);
    PairsDistinct(pools, p, n, q, m);
  }

  lemma SameJobSamePair(p: string, n: string, q: string, m: string)
    requires |PairName(p, n)| <= 53 && JobName(p, n) == JobName(q, m)
    ensures PairName(p, n) == PairName(q, m)
  {
    hide Hash, JobName;
    var s, t, r := PairName(p, n), PairName(q, m), JobName(p, n);
    JobNameShape(p, n);
    JobNameShape(q, m);
    KeptIsNoHash(p, n, q, m);
    KeptKeepsLength(p, n, q, m);
    assert s == r[|r| - |s|..] && t == r[|r| - |t|..];
  }

  lemma KeptIsNoHash(p: string, n: string, q: string, m: string)
    requires |PairName(p, n)| <= 53
    ensures |PairName(q, m)| > 53 ==> JobName(p, n) != JobName(q, m)
  {
    hide Hash, JobName;
    JobNameShape(p, n);
    JobNameShape(q, m);
    if |PairName(q, m)| > 53 {
      assert JobName(q, m)[|CLEANUP_PREFIX| + 1..] == Hash(CLEANUP_PREFIX + "-" + PairName(q, m));
      HashIsNoPair(CLEANUP_PREFIX + "-" + PairName(q, m), p, n);
      if |PairName(p, n)| <= 50 { assert JobName(p, n)[|CLEANUP_PREFIX| + 1..] == PairName(p, n); }
    }
  }

  lemma KeptKeepsLength(p: string, n: string, q: string, m: string)
    requires |PairName(p, n)| <= 53
    ensures |PairName(q, m)| <= 53 && |PairName(p, n)| != |PairName(q, m)| ==> JobName(p, n) != JobName(q, m)
  {
    hide Hash, JobName;
    var s, t := PairName(p, n), PairName(q, m);
    JobNameShape(p, n);
    JobNameShape(q, m);
    if |s| > 50 { assert JobName(p, n)[53 - |s|] == '-'; }
    if 50 < |t| <= 53 { assert JobName(q, m)[53 - |t|] == '-'; }
    forall i: nat | i < 3 ensures CLEANUP_PREFIX[i] != '-' { DashPlace(i); }
    if |t| < |s| && |s| > 50 { assert JobName(q, m)[53 - |s|] == CLEANUP_PREFIX[53 - |s|]; }
    if |s| < |t| && 50 < |t| <= 53 { assert JobName(p, n)[53 - |t|] == CLEANUP_PREFIX[53 - |t|]; }
  }

  /** The prefix has one dash, in its eighth place. */
  lemma DashPlace(i: nat)
    requires i < 3
    ensures CLEANUP_PREFIX[i] != '-'
  {
  }

  /** A cleanup job name starts with a dash, which no API server accepts, exactly when pool and
      node names take 53 characters together with the dash between them. */
  lemma JobNameStartsWithDash(pool: string, node: string)
    ensures JobName(pool, node) != "" && (JobName(pool, node)[0] == '-' <==> |pool| + 1 + |node| == 53)
  {
    var s := PairName(pool, node);
    if |CLEANUP_PREFIX| + 1 + |s| <= MAX_NAME {
    } else if |s| < 53 {
      assert JobName(pool, node)[0] == CLEANUP_PREFIX[0];
    } else if |s| > 53 {
      assert JobName(pool, node)[0] == CLEANUP_PREFIX[0];
    }
  }
}
