// Operator versions: the precedence of section 11 of Semantic Versioning 2.0.0 as the operator's
// version library computes it, and the upgrade decision (controller.go).

module Versions {
  import opened CustomResource
  import opened Strings

  /** A pre-release identifier. */
  datatype Identifier = Numeric(n: nat) | Alpha(s: string)

  datatype Version = Version(major: nat, minor: nat, patch: nat, pre: seq<Identifier>, build: seq<string>)

  // -------------------------------------------------------------------------- precedence

  /** -1, 0 or 1. */
  function CompareNat(a: nat, b: nat): int {
    if a == b then 0 else if a > b then 1 else -1
  }

  /** Byte order of strings. */
  function CompareString(a: string, b: string): int {
    if a == "" then (if b == "" then 0 else -1)
    else if b == "" then 1
    else if a[0] != b[0] then (if a[0] > b[0] then 1 else -1)
    else CompareString(a[1..], b[1..])
  }

  function CompareIdentifier(a: Identifier, b: Identifier): int {
    if a.Numeric? then (if b.Numeric? then CompareNat(a.n, b.n) else -1)
    else if b.Numeric? then 1
    else CompareString(a.s, b.s)
  }

  function ComparePre(a: seq<Identifier>, b: seq<Identifier>): int {
    if a == [] then (if b == [] then 0 else -1)
    else if b == [] then 1
    else
      var c := CompareIdentifier(a[0], b[0]);
      if c != 0 then c else ComparePre(a[1..], b[1..])
  }

  function Compare(v: Version, o: Version): int {
    if v.major != o.major then CompareNat(v.major, o.major)
    else if v.minor != o.minor then CompareNat(v.minor, o.minor)
    else if v.patch != o.patch then CompareNat(v.patch, o.patch)
    else if v.pre == [] || o.pre == [] then
      (if v.pre == [] && o.pre == [] then 0 else if v.pre == [] then 1 else -1)
    else ComparePre(v.pre, o.pre)
  }

  // ----------------------------------------------------------------------------- parsing

  predicate Digit(c: char) { '0' <= c <= '9' }

  predicate AlphaNum(c: char) { Digit(c) || 'a' <= c <= 'z' || 'A' <= c <= 'Z' || c == '-' }

  function Value(s: string): nat
    requires forall c | c in s :: Digit(c)
  {
    if s == "" then 0
    else
      assert Digit(s[|s| - 1]);
      10 * Value(s[..|s| - 1]) + (s[|s| - 1] - '0') as nat
  }

  const MAX_UINT64: nat := 0xFFFF_FFFF_FFFF_FFFF

  /** A decimal number of the library: non-empty, no leading zero, fits 64 bits. */
  function ParseNumber(s: string): Option<nat> {
    if s == "" || (exists c | c in s :: !Digit(c)) || (|s| > 1 && s[0] == '0') then None
    else if Value(s) > MAX_UINT64 then None
    else Some(Value(s))
  }

  function ParseIdentifier(s: string): Option<Identifier> {
    if s == "" then None
    else if forall c | c in s :: Digit(c) then
      match ParseNumber(s) { case Some(n) => Some(Numeric(n)) case None => None }
    else if forall c | c in s :: AlphaNum(c) then Some(Alpha(s))
    else None
  }

  function ParsePre(parts: seq<string>): Option<seq<Identifier>> {
    if parts == [] then Some([])
    else
      match (ParseIdentifier(parts[0]), ParsePre(parts[1..]))
      case (Some(i), Some(rest)) => Some([i] + rest)
      case _ => None
  }

  /** GetVersionFromString: the leading v is optional. */
  function Parse(text: string): Option<Version> {
    var s := if |text| > 0 && text[0] == 'v' then text[1..] else text;
    var i := Find(s, '.');
    if i == |s| then None
    else
      var rest := s[i + 1..];
      var j := Find(rest, '.');
      if j == |rest| then None else ParseFrom(s[..i], rest[..j], rest[j + 1..])
  }

  function ParseFrom(major: string, minor: string, tail: string): Option<Version> {
    var plus := Find(tail, '+');
    var build := if plus == |tail| then [] else Split(tail[plus + 1..], '.');
    var core := tail[..plus];
    var dash := Find(core, '-');
    var pre := if dash == |core| then [] else Split(core[dash + 1..], '.');
    if exists b | b in build :: b == "" || exists c | c in b :: !AlphaNum(c) then None
    else
      match (ParseNumber(major), ParseNumber(minor), ParseNumber(core[..dash]), ParsePre(pre))
      case (Some(x), Some(y), Some(z), Some(p)) => Some(Version(x, y, z, p, build))
      case _ => None
  }

  // ---------------------------------------------------------------------------- upgrading

  datatype Decision = Keep | Upgrade | Downgrade

  /** canUpgrade: Downgrade is the error that stops a reconcile. */
  function CanUpgrade(current: string, target: string): Decision {
    if current == "" || target == current then Keep
    else
      match (Parse(target), Parse(current))
      case (Some(t), Some(c)) =>
        if Compare(t, c) < 0 then Downgrade else if Compare(t, c) == 0 then Keep else Upgrade
      case _ => Upgrade
  }

  // ------------------------------------------------------------------- a total preorder

  lemma {:induction false} CompareStringOrder(a: string, b: string, c: string)
    ensures -1 <= CompareString(a, b) <= 1 && CompareString(a, b) == -CompareString(b, a)
    ensures CompareString(a, b) == 0 <==> a == b
    ensures CompareString(a, b) <= 0 && CompareString(b, c) <= 0 ==>
              CompareString(a, c) <= 0 && (CompareString(a, c) == 0 ==>
                                             CompareString(a, b) == 0 && CompareString(b, c) == 0)
    decreases |a| + |b| + |c|
  {
    if a != "" && b != "" && a[0] == b[0] {
      CompareStringOrder(a[1..], b[1..], if c == "" then "" else c[1..]);
      assert a == [a[0]] + a[1..] && b == [b[0]] + b[1..];
    }
  }

  lemma CompareIdentifierOrder(a: Identifier, b: Identifier, c: Identifier)
    ensures -1 <= CompareIdentifier(a, b) <= 1 && CompareIdentifier(a, b) == -CompareIdentifier(b, a)
    ensures CompareIdentifier(a, b) == 0 <==> a == b
    ensures CompareIdentifier(a, b) <= 0 && CompareIdentifier(b, c) <= 0 ==>
              CompareIdentifier(a, c) <= 0
              && (CompareIdentifier(a, c) == 0 ==> CompareIdentifier(a, b) == 0 && CompareIdentifier(b, c) == 0)
  {
    if a.Alpha? && b.Alpha? { CompareStringOrder(a.s, b.s, if c.Alpha? then c.s else ""); }
  }

  lemma {:induction false} ComparePreOrder(a: seq<Identifier>, b: seq<Identifier>, c: seq<Identifier>)
    ensures -1 <= ComparePre(a, b) <= 1 && ComparePre(a, b) == -ComparePre(b, a)
    ensures ComparePre(a, b) == 0 <==> a == b
    ensures ComparePre(a, b) <= 0 && ComparePre(b, c) <= 0 ==>
              ComparePre(a, c) <= 0 && (ComparePre(a, c) == 0 ==> ComparePre(a, b) == 0 && ComparePre(b, c) == 0)
    decreases |a| + |b| + |c|
  {
    if a != [] && b != [] {
      CompareIdentifierOrder(a[0], b[0], if c == [] then a[0] else c[0]);
      CompareIdentifierOrder(b[0], if c == [] then a[0] else c[0], a[0]);
      ComparePreOrder(a[1..], b[1..], if c == [] then [] else c[1..]);
      assert a == [a[0]] + a[1..] && b == [b[0]] + b[1..];
    }
  }

  /** Precedence is a total preorder: total, transitive, and equal exactly when the versions
      differ in build metadata alone. */
  lemma PrecedenceIsTotalPreorder(a: Version, b: Version, c: Version)
    ensures -1 <= Compare(a, b) <= 1 && Compare(a, b) == -Compare(b, a)
    ensures Compare(a, b) == 0 <==> a.(build := b.build) == b
    ensures Compare(a, b) <= 0 && Compare(b, c) <= 0 ==> Compare(a, c) <= 0
  {
    ComparePreOrder(a.pre, b.pre, c.pre);
  }
}
