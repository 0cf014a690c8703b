// Searching and splitting byte strings.

module Strings {

  /** Position of the first c at or after i, or the length of s. */
  function Find(s: string, c: char, i: nat := 0): (r: nat)
    requires i <= |s|
    ensures i <= r <= |s|
    ensures r < |s| ==> s[r] == c
    ensures forall k | i <= k < r :: s[k] != c
    decreases |s| - i
  {
    if i == |s| || s[i] == c then i else Find(s, c, i + 1)
  }

  function Split(s: string, c: char): (r: seq<string>)
    ensures |r| > 0
    decreases |s|
  {
    var i := Find(s, c);
    if i == |s| then [s] else [s[..i]] + Split(s[i + 1..], c)
  }

  function Concat(parts: seq<string>, c: char): string {
    if parts == [] then "" else if |parts| == 1 then parts[0] else parts[0] + [c] + Concat(parts[1..], c)
  }

  predicate HasPrefix(s: string, prefix: string) {
    prefix <= s
  }

  lemma {:induction false} SplitAtSeparator(a: string, c: char, rest: string)
    requires c !in a
    ensures Split(a + [c] + rest, c) == [a] + Split(rest, c)
  {
    var s := a + [c] + rest;
    var i := Find(s, c);
    assert s[|a|] == c;
    assert forall k | 0 <= k < |a| :: s[k] == a[k];
    assert i == |a| && s[..i] == a && s[i + 1..] == rest;
  }

  lemma SplitWhole(a: string, c: char)
    requires c !in a
    ensures Split(a, c) == [a]
  {
    assert Find(a, c) == |a|;
  }

  lemma {:induction false} ConcatSplit(s: string, c: char)
    ensures Concat(Split(s, c), c) == s
    decreases |s|
  {
    var i := Find(s, c);
    if i < |s| {
      ConcatSplit(s[i + 1..], c);
      assert s == s[..i] + [c] + s[i + 1..];
    }
  }

  /** A last part without the separator is the last part again. */
  lemma {:induction false} SplitAppend(s: string, c: char, last: string)
    requires c !in last
    ensures Split(s + [c] + last, c) == Split(s, c) + [last]
    decreases |s|
  {
    hide Split;
    var i := Find(s, c);
    if i == |s| {
      assert c !in s;
      SplitWhole(s, c);
      SplitAtSeparator(s, c, last);
      SplitWhole(last, c);
    } else {
      var rest := s[i + 1..];
      SplitAppend(rest, c, last);
      assert s == s[..i] + [c] + rest;
      SplitAtSeparator(s[..i], c, rest);
      assert s + [c] + last == s[..i] + [c] + (rest + [c] + last);
      SplitAtSeparator(s[..i], c, rest + [c] + last);
    }
  }

  /** Parts without the separator are joined and split again. */
  lemma {:induction false} SplitConcat(parts: seq<string>, c: char)
    requires parts != [] && forall p | p in parts :: c !in p
    ensures Split(Concat(parts, c), c) == parts
  {
    hide Split;
    assert c !in parts[0];
    if |parts| == 1 {
      SplitWhole(parts[0], c);
    } else {
      SplitConcat(parts[1..], c);
      SplitAtSeparator(parts[0], c, Concat(parts[1..], c));
      assert parts == [parts[0]] + parts[1..];
    }
  }

  /** The first separator, and what is around it. */
  lemma FindSplits(a: string, c: char, rest: string)
    requires c !in a
    ensures Find(a, c) == |a|
    ensures var s := a + [c] + rest; Find(s, c) == |a| && s[..|a|] == a && s[|a| + 1..] == rest
  {
    var s := a + [c] + rest;
    assert s[|a|] == c && forall k | 0 <= k < |a| :: s[k] == a[k];
  }

  lemma FindAround(s: string, c: char)
    ensures var i := Find(s, c); c !in s[..i] && (i < |s| ==> s == s[..i] + [c] + s[i + 1..])
                                 && (i == |s| ==> s[..i] == s)
  {
  }
}
