// What the comparison and the parsing of versions mean: precedence as section 11 of Semantic
// Versioning 2.0.0 writes it down, and the text of a version, which is parsed back and nothing else.

module VersionProofs {
  import opened CustomResource
  import opened Strings
  import opened Versions

  // -------------------------------------------------------------------------- precedence

  /** The texts agree up to some place, where a ends or has the smaller character. */
  ghost predicate TextBefore(a: string, b: string) {
    exists i: nat :: SplitAt(a, b, i) && (if i < |a| then a[i] < b[i] else true)
  }

  /** Both agree up to i, and b goes on there. */
  predicate SplitAt<T(==)>(a: seq<T>, b: seq<T>, i: nat) {
    i <= |a| && i < |b| && a[..i] == b[..i]
  }

  /** Numbers by value, before all texts. */
  ghost predicate IdentifierBefore(a: Identifier, b: Identifier) {
    match (a, b)
    case (Numeric(m), Numeric(n)) => m < n
    case (Numeric(_), Alpha(_)) => true
    case (Alpha(_), Numeric(_)) => false
    case (Alpha(s), Alpha(t)) => TextBefore(s, t)
  }

  /** The first identifier that differs decides, and a list comes before any longer one. */
  ghost predicate PreBefore(a: seq<Identifier>, b: seq<Identifier>) {
    exists i: nat :: SplitAt(a, b, i) && (if i < |a| then IdentifierBefore(a[i], b[i]) else true)
  }

  /** Major, minor and patch number in this order; a pre-release comes before its release. */
  ghost predicate Before(a: Version, b: Version) {
    || a.major < b.major
    || (a.major == b.major && a.minor < b.minor)
    || (a.major == b.major && a.minor == b.minor && a.patch < b.patch)
    || (a.major == b.major && a.minor == b.minor && a.patch == b.patch && a.pre != []
        && (b.pre == [] || PreBefore(a.pre, b.pre)))
  }

  lemma SplitMoves<T>(a: seq<T>, b: seq<T>, i: nat)
    requires a != [] && b != [] && a[0] == b[0]
    ensures SplitAt(a[1..], b[1..], i) <==> SplitAt(a, b, i + 1)
  {
    if i <= |a| - 1 && i < |b| - 1 {
      assert a[..i + 1] == [a[0]] + a[1..][..i] && b[..i + 1] == [b[0]] + b[1..][..i];
      assert a[1..][..i] == a[..i + 1][1..] && b[1..][..i] == b[..i + 1][1..];
    }
  }

  /** Without a common first element the split is at the start. */
  lemma SplitStarts<T>(a: seq<T>, b: seq<T>)
    ensures SplitAt(a, b, 0) <==> b != []
    ensures (a == [] || b == [] || a[0] != b[0]) ==> forall i: nat | SplitAt(a, b, i) :: i == 0
  {
    forall i: nat | SplitAt(a, b, i) && i > 0 ensures a != [] && b != [] && a[0] == b[0] {
      assert a[0] == a[..i][0] && b[0] == b[..i][0];
    }
  }

  lemma {:induction false} CompareStringMeans(a: string, b: string)
    ensures CompareString(a, b) < 0 <==> TextBefore(a, b)
  {
    SplitStarts(a, b);
    if a != "" && b != "" && a[0] == b[0] {
      CompareStringMeans(a[1..], b[1..]);
      if TextBefore(a[1..], b[1..]) {
        var i: nat :| SplitAt(a[1..], b[1..], i) && (if i < |a[1..]| then a[1..][i] < b[1..][i] else true);
        SplitMoves(a, b, i);
        assert SplitAt(a, b, i + 1);
      }
      if TextBefore(a, b) {
        var i: nat :| SplitAt(a, b, i) && (if i < |a| then a[i] < b[i] else true);
        SplitMoves(a, b, i - 1);
        assert SplitAt(a[1..], b[1..], i - 1);
      }
    }
  }

  lemma CompareIdentifierMeans(a: Identifier, b: Identifier)
    ensures CompareIdentifier(a, b) < 0 <==> IdentifierBefore(a, b)
  {
    if a.Alpha? && b.Alpha? { CompareStringMeans(a.s, b.s); }
  }

  lemma {:induction false} ComparePreMeans(a: seq<Identifier>, b: seq<Identifier>)
    ensures ComparePre(a, b) < 0 <==> PreBefore(a, b)
  {
    hide IdentifierBefore, CompareIdentifier;
    SplitStarts(a, b);
    if a != [] && b != [] {
      CompareIdentifierMeans(a[0], b[0]);
      CompareIdentifierOrder(a[0], b[0], a[0]);
      if a[0] == b[0] {
        ComparePreMeans(a[1..], b[1..]);
        if PreBefore(a[1..], b[1..]) {
          var i: nat :| SplitAt(a[1..], b[1..], i)
                        && (if i < |a[1..]| then IdentifierBefore(a[1..][i], b[1..][i]) else true);
          SplitMoves(a, b, i);
          assert SplitAt(a, b, i + 1);
        }
        if PreBefore(a, b) {
          var i: nat :| SplitAt(a, b, i) && (if i < |a| then IdentifierBefore(a[i], b[i]) else true);
          SplitMoves(a, b, i - 1);
          assert SplitAt(a[1..], b[1..], i - 1);
        }
      }
    }
  }

  /** The comparison computes precedence. */
  lemma CompareMeans(a: Version, b: Version)
    ensures Compare(a, b) < 0 <==> Before(a, b)
    ensures Compare(a, b) > 0 <==> Before(b, a)
  {
    hide PreBefore, ComparePre;
    ComparePreMeans(a.pre, b.pre);
    ComparePreMeans(b.pre, a.pre);
    ComparePreOrder(a.pre, b.pre, a.pre);
  }

  /** The decision between two versions, by precedence: only a target before the current version stops a
      run, and a text that is no version never does. */
  lemma DecisionMeans(current: string, target: string)
    ensures CanUpgrade(current, target) == Downgrade <==>
            && current != "" && Parse(current).Some? && Parse(target).Some?
            && Before(Parse(target).value, Parse(current).value)
    ensures CanUpgrade(current, target) == Upgrade <==>
            && current != "" && target != current
            && (Parse(current).Some? && Parse(target).Some? ==> Before(Parse(current).value, Parse(target).value))
  {
    hide Parse, Compare, Before;
    if Parse(current).Some? && Parse(target).Some? {
      CompareMeans(Parse(target).value, Parse(current).value);
      PrecedenceIsTotalPreorder(Parse(target).value, Parse(current).value, Parse(target).value);
    }
  }

  /** a is no later than b, for two versions that parse. */
  ghost predicate NotAfter(a: string, b: string) {
    Parse(a).Some? && Parse(b).Some? && !Before(Parse(b).value, Parse(a).value)
  }

  lemma NotAfterOrder(a: string, b: string, c: string)
    ensures Parse(a).Some? ==> NotAfter(a, a)
    ensures NotAfter(a, b) && NotAfter(b, c) ==> NotAfter(a, c)
    ensures Parse(a).Some? && Parse(b).Some? && CanUpgrade(a, b) != Downgrade && a != "" ==> NotAfter(a, b)
  {
    hide Parse, Compare, Before, CanUpgrade;
    if Parse(a).Some? {
      CompareMeans(Parse(a).value, Parse(a).value);
      PrecedenceIsTotalPreorder(Parse(a).value, Parse(a).value, Parse(a).value);
      if Parse(b).Some? {
        DecisionMeans(a, b);
        CompareMeans(Parse(a).value, Parse(b).value);
        if Parse(c).Some? {
          CompareMeans(Parse(b).value, Parse(c).value);
          CompareMeans(Parse(a).value, Parse(c).value);
          PrecedenceIsTotalPreorder(Parse(a).value, Parse(b).value, Parse(c).value);
        }
      }
    }
  }

  // ------------------------------------------------------------------- the text of a version

  function Decimal(n: nat): string {
    (if n < 10 then "" else Decimal(n / 10)) + ['0' + (n % 10) as char]
  }

  function IdentifierText(i: Identifier): string {
    match i
    case Numeric(n) => Decimal(n)
    case Alpha(s) => s
  }

  function PreTexts(pre: seq<Identifier>): (r: seq<string>)
    ensures |r| == |pre|
  {
    seq(|pre|, i requires 0 <= i < |pre| => IdentifierText(pre[i]))
  }

  /** What follows the second dot. */
  function Tail(v: Version): string {
    Decimal(v.patch) + (if v.pre == [] then "" else "-" + Concat(PreTexts(v.pre), '.'))
    + (if v.build == [] then "" else "+" + Concat(v.build, '.'))
  }

  function VersionText(v: Version): string {
    Decimal(v.major) + "." + Decimal(v.minor) + "." + Tail(v)
  }

  predicate Numbers(s: string) {
    s != "" && forall c | c in s :: Digit(c)
  }

  /** Letters, digits and hyphens. */
  predicate Plain(s: string) {
    s != "" && forall c | c in s :: AlphaNum(c)
  }

  predicate ValidIdentifier(i: Identifier) {
    match i
    case Numeric(n) => n <= MAX_UINT64
    case Alpha(s) => Plain(s) && !Numbers(s)
  }

  ghost predicate Valid(v: Version) {
    && v.major <= MAX_UINT64 && v.minor <= MAX_UINT64 && v.patch <= MAX_UINT64
    && (forall i | i in v.pre :: ValidIdentifier(i)) && forall b | b in v.build :: Plain(b)
  }

  lemma {:induction false} DecimalNumber(n: nat)
    ensures Numbers(Decimal(n)) && Value(Decimal(n)) == n && (Decimal(n)[0] == '0' ==> n == 0 && |Decimal(n)| == 1)
    ensures n <= MAX_UINT64 ==> ParseNumber(Decimal(n)) == Some(n)
  {
    var last := '0' + (n % 10) as char;
    var s := Decimal(n);
    assert s[|s| - 1] == last && Digit(last) && (last - '0') as nat == n % 10;
    if n >= 10 {
      DecimalNumber(n / 10);
      assert s[..|s| - 1] == Decimal(n / 10) && s[0] == Decimal(n / 10)[0];
    } else {
      assert s[..|s| - 1] == "";
    }
  }

  lemma DecimalStep(m: nat, last: char)
    requires Digit(last) && m > 0
    ensures Decimal(10 * m + (last - '0') as nat) == Decimal(m) + [last]
  {
    var d := (last - '0') as nat;
    assert (10 * m + d) / 10 == m && (10 * m + d) % 10 == d && '0' + d as char == last;
  }

  lemma DigitOf(last: char)
    requires Digit(last)
    ensures (last - '0') as nat < 10 && '0' + (last - '0') as nat as char == last
  {
  }

  lemma OneDigit(last: char)
    requires Digit(last)
    ensures Decimal((last - '0') as nat) == [last] && Value([last]) == (last - '0') as nat
  {
    var d := (last - '0') as nat;
    DigitOf(last);
    assert d % 10 == d && Decimal(d) == "" + ['0' + d as char];
    assert [last][..0] == "" && Value("") == 0;
  }

  lemma {:induction false} NumberText(s: string)
    requires Numbers(s) && (|s| > 1 ==> s[0] != '0')
    ensures Decimal(Value(s)) == s && (|s| > 1 ==> Value(s) >= 10) && (s[0] != '0' ==> Value(s) > 0)
  {
    hide Decimal;
    var init, last := s[..|s| - 1], s[|s| - 1];
    assert s == init + [last] && last in s;
    if |s| == 1 {
      assert s == [last];
      OneDigit(last);
    } else {
      assert init[0] == s[0];
      assert forall c | c in init :: c in s;
      NumberText(init);
      DecimalStep(Value(init), last);
      assert Value(s) == 10 * Value(init) + (last - '0') as nat;
    }
  }

  /** A number is read exactly from its decimal text. */
  lemma NumberExact(s: string, n: nat)
    ensures ParseNumber(s) == Some(n) <==> n <= MAX_UINT64 && s == Decimal(n)
  {
    DecimalNumber(n);
    if ParseNumber(s).Some? { NumberText(s); }
  }

  lemma IdentifierExact(s: string, i: Identifier)
    ensures ParseIdentifier(s) == Some(i) <==> ValidIdentifier(i) && s == IdentifierText(i)
  {
    hide Decimal, ParseNumber;
    if i.Numeric? {
      DecimalNumber(i.n);
      NumberExact(s, i.n);
    }
  }

  lemma {:induction false} PreExact(parts: seq<string>, pre: seq<Identifier>)
    ensures ParsePre(parts) == Some(pre) <==> (forall i | i in pre :: ValidIdentifier(i)) && parts == PreTexts(pre)
  {
    hide ParseIdentifier, ValidIdentifier, IdentifierText;
    if parts != [] && pre != [] {
      IdentifierExact(parts[0], pre[0]);
      PreExact(parts[1..], pre[1..]);
      assert PreTexts(pre)[1..] == PreTexts(pre[1..]) && PreTexts(pre) == [IdentifierText(pre[0])] + PreTexts(pre[1..]);
      assert pre == [pre[0]] + pre[1..] && parts == [parts[0]] + parts[1..];
    }
  }

  lemma {:induction false} ConcatKeepsOut(parts: seq<string>, c: char, x: char)
    requires c != x && forall p | p in parts :: x !in p
    ensures x !in Concat(parts, c)
  {
    if |parts| > 1 {
      ConcatKeepsOut(parts[1..], c, x);
      assert parts[0] in parts;
    }
  }

  lemma NumberIsClean(n: nat)
    ensures '-' !in Decimal(n) && '+' !in Decimal(n) && '.' !in Decimal(n) && Decimal(n) != "" && Decimal(n)[0] != 'v'
  {
    DecimalNumber(n);
    assert Decimal(n)[0] in Decimal(n);
  }

  /** Texts of valid parts hold neither dots nor plus signs. */
  lemma TextsAreClean(v: Version)
    requires Valid(v)
    ensures forall t | t in PreTexts(v.pre) :: '.' !in t && '+' !in t
    ensures forall t | t in v.build :: '.' !in t
    ensures '+' !in Concat(PreTexts(v.pre), '.')
  {
    forall t | t in PreTexts(v.pre) ensures '.' !in t && '+' !in t {
      var i :| 0 <= i < |v.pre| && PreTexts(v.pre)[i] == t;
      assert ValidIdentifier(v.pre[i]);
      if v.pre[i].Numeric? { DecimalNumber(v.pre[i].n); }
    }
    forall t | t in v.build ensures '.' !in t { assert Plain(t); }
    ConcatKeepsOut(PreTexts(v.pre), '.', '+');
  }

  /** The tail of a version: up to the plus sign, and up to the hyphen. */
  function Core(v: Version): string {
    Decimal(v.patch) + (if v.pre == [] then "" else "-" + Concat(PreTexts(v.pre), '.'))
  }

  lemma TailSplits(v: Version)
    requires Valid(v)
    ensures var tail, n := Tail(v), |Core(v)|;
            && Find(tail, '+') == n && tail[..n] == Core(v) && (n == |tail| <==> v.build == [])
            && (n < |tail| ==> Split(tail[n + 1..], '.') == v.build)
  {
    hide Decimal, Concat, PreTexts, Split, Find, ValidIdentifier;
    TextsAreClean(v);
    NumberIsClean(v.patch);
    var tail, core := Tail(v), Core(v);
    assert '+' !in core;
    FindSplits(core, '+', if v.build == [] then "" else Concat(v.build, '.'));
    if v.build == [] {
      assert tail == core && tail[..|core|] == core;
    } else {
      assert tail == core + ['+'] + Concat(v.build, '.');
      SplitConcat(v.build, '.');
    }
  }

  lemma CoreSplits(v: Version)
    requires Valid(v)
    ensures var core, n := Core(v), |Decimal(v.patch)|;
            && Find(core, '-') == n && core[..n] == Decimal(v.patch) && (n == |core| <==> v.pre == [])
            && (n < |core| ==> Split(core[n + 1..], '.') == PreTexts(v.pre))
  {
    hide Decimal, Concat, PreTexts, Split, Find, ValidIdentifier;
    TextsAreClean(v);
    NumberIsClean(v.patch);
    PreLength(v.pre);
    var core, patch := Core(v), Decimal(v.patch);
    FindSplits(patch, '-', if v.pre == [] then "" else Concat(PreTexts(v.pre), '.'));
    if v.pre == [] {
      assert core == patch && core[..|patch|] == patch;
    } else {
      assert core == patch + ['-'] + Concat(PreTexts(v.pre), '.');
      SplitConcat(PreTexts(v.pre), '.');
    }
  }

  lemma PreLength(pre: seq<Identifier>)
    ensures |PreTexts(pre)| == |pre|
  {
  }

  lemma TailIsParsed(v: Version)
    requires Valid(v)
    ensures ParseFrom(Decimal(v.major), Decimal(v.minor), Tail(v)) == Some(v)
  {
    hide Decimal, Concat, PreTexts, ParsePre, ParseNumber, Split, Find, ValidIdentifier, Tail, Core;
    TailSplits(v);
    CoreSplits(v);
    NumberExact(Decimal(v.major), v.major);
    NumberExact(Decimal(v.minor), v.minor);
    NumberExact(Decimal(v.patch), v.patch);
    PreLength(v.pre);
    PreExact(PreTexts(v.pre), v.pre);
    PreExact([], v.pre);
    forall b | b in v.build ensures Plain(b) { }
  }

  lemma ParsedIsCore(core: string, dash: nat, parts: seq<string>, v: Version)
    requires dash == Find(core, '-') && parts == if dash == |core| then [] else Split(core[dash + 1..], '.')
    requires ParseNumber(core[..dash]) == Some(v.patch) && ParsePre(parts) == Some(v.pre)
    ensures core == Core(v) && v.patch <= MAX_UINT64 && forall i | i in v.pre :: ValidIdentifier(i)
  {
    hide Decimal, Concat, PreTexts, ParsePre, ParseNumber, Split, Find, ValidIdentifier;
    FindAround(core, '-');
    NumberExact(core[..dash], v.patch);
    PreExact(parts, v.pre);
    PreLength(v.pre);
    if dash == |core| {
      assert v.pre == [] && Core(v) == Decimal(v.patch) + "" == core;
    } else {
      var rest := core[dash + 1..];
      ConcatSplit(rest, '.');
      assert |parts| > 0 && v.pre != [];
      assert Core(v) == core[..dash] + (['-'] + rest) == core;
    }
  }

  lemma ParsedIsTail(major: string, minor: string, tail: string, v: Version)
    requires ParseFrom(major, minor, tail) == Some(v)
    ensures Valid(v) && major == Decimal(v.major) && minor == Decimal(v.minor) && tail == Tail(v)
  {
    hide Decimal, Concat, PreTexts, ParsePre, ParseNumber, Split, Find, ValidIdentifier, Core;
    var plus := Find(tail, '+');
    var core := tail[..plus];
    var dash := Find(core, '-');
    FindAround(tail, '+');
    NumberExact(major, v.major);
    NumberExact(minor, v.minor);
    ParsedIsCore(core, dash, if dash == |core| then [] else Split(core[dash + 1..], '.'), v);
    TailFromCore(v);
    if plus == |tail| {
      assert v.build == [] && tail == core + "";
    } else {
      var rest := tail[plus + 1..];
      ConcatSplit(rest, '.');
      assert v.build == Split(rest, '.') && tail == core + (['+'] + rest);
    }
    assert forall b | b in v.build :: Plain(b);
  }

  lemma TailFromCore(v: Version)
    ensures Tail(v) == Core(v) + (if v.build == [] then "" else ['+'] + Concat(v.build, '.'))
  {
  }

  lemma TextIsParsed(text: string, v: Version)
    requires Valid(v) && text in {VersionText(v), "v" + VersionText(v)}
    ensures Parse(text) == Some(v)
  {
    hide Tail, ParseFrom, Decimal, Find, Valid;
    var major, minor, s := Decimal(v.major), Decimal(v.minor), VersionText(v);
    TailIsParsed(v);
    NumberIsClean(v.major);
    NumberIsClean(v.minor);
    var rest := minor + ['.'] + Tail(v);
    assert s == major + ['.'] + rest;
    FindSplits(major, '.', rest);
    FindSplits(minor, '.', Tail(v));
    assert s[0] == major[0] && ("v" + s)[1..] == s;
  }

  lemma ParsedIsText(text: string, v: Version)
    requires Parse(text) == Some(v)
    ensures Valid(v) && text in {VersionText(v), "v" + VersionText(v)}
  {
    hide Tail, ParseFrom, Decimal, Find, Valid;
    var s := if |text| > 0 && text[0] == 'v' then text[1..] else text;
    var i := Find(s, '.');
    var rest := s[i + 1..];
    var j := Find(rest, '.');
    FindAround(s, '.');
    FindAround(rest, '.');
    ParsedIsTail(s[..i], rest[..j], rest[j + 1..], v);
    Dotted(s, s[..i], rest, rest[..j], rest[j + 1..]);
    WithoutV(text);
  }

  lemma Dotted(s: string, major: string, rest: string, minor: string, tail: string)
    requires s == major + ['.'] + rest && rest == minor + ['.'] + tail
    ensures s == major + "." + minor + "." + tail
  {
  }

  lemma WithoutV(text: string)
    ensures |text| > 0 && text[0] == 'v' ==> text == "v" + text[1..]
  {
  }

  /** A text is parsed as a version exactly when it is the text of that version, with or without a v in
      front. */
  lemma ParseExact(text: string, v: Version)
    ensures Parse(text) == Some(v) <==> Valid(v) && text in {VersionText(v), "v" + VersionText(v)}
  {
    hide VersionText, Parse, Valid;
    if Parse(text) == Some(v) {
      ParsedIsText(text, v);
    } else if Valid(v) && text in {VersionText(v), "v" + VersionText(v)} {
      TextIsParsed(text, v);
    }
  }
}
