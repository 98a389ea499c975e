/** Strings as the gateway handles them: ASCII case folding, trimming, splitting at a separator. */
module Text {

  function LowerChar(c: char): char {
    if 'A' <= c <= 'Z' then c - 'A' + 'a' else c
  }

  function UpperChar(c: char): char {
    if 'a' <= c <= 'z' then c - 'a' + 'A' else c
  }

  function Lower(s: string): (r: string)
    ensures |r| == |s|
  {
    seq(|s|, i requires 0 <= i < |s| => LowerChar(s[i]))
  }

  function Upper(s: string): (r: string)
    ensures |r| == |s|
  {
    seq(|s|, i requires 0 <= i < |s| => UpperChar(s[i]))
  }

  lemma CaseFolding(s: string)
    ensures Lower(Lower(s)) == Lower(s)
    ensures Upper(Lower(s)) == Upper(s)
    ensures Lower(Upper(s)) == Lower(s)
  {
  }

  lemma AlreadyLower(s: string)
    requires forall i :: 0 <= i < |s| ==> !('A' <= s[i] <= 'Z')
    ensures Lower(s) == s
  {
  }

  predicate IsSpace(c: char) {
    c == ' ' || '\t' <= c <= '\r'
  }

  function TrimStart(s: string): (r: string)
    ensures r == [] || !IsSpace(r[0])
    ensures |r| <= |s|
  {
    if s != [] && IsSpace(s[0]) then TrimStart(s[1..]) else s
  }

  function TrimEnd(s: string): (r: string)
    ensures r == [] || !IsSpace(r[|r| - 1])
    ensures |r| <= |s| && r == s[..|r|]
  {
    if s != [] && IsSpace(s[|s| - 1]) then TrimEnd(s[..|s| - 1]) else s
  }

  function Trim(s: string): string {
    TrimEnd(TrimStart(s))
  }

  // ---------------------------------------------------------------- splitting

  /** The pieces of `s` between occurrences of `sep`: always at least one. */
  function Split(s: string, sep: char): (r: seq<string>)
    ensures |r| >= 1
  {
    if s == [] then [""]
    else if s[0] == sep then [""] + Split(s[1..], sep)
    else
      var rest := Split(s[1..], sep);
      [[s[0]] + rest[0]] + rest[1..]
  }

  lemma {:induction false} SplitWhole(a: string, sep: char)
    requires sep !in a
    ensures Split(a, sep) == [a]
  {
    if a != [] {
      assert sep !in a[1..];
      SplitWhole(a[1..], sep);
      assert [a[0]] + a[1..] == a;
    }
  }

  /** A piece that does not hold the separator is read back in full. */
  lemma {:induction false} SplitFirst(a: string, sep: char, rest: string)
    requires sep !in a
    ensures Split(a + [sep] + rest, sep) == [a] + Split(rest, sep)
  {
    var s := a + [sep] + rest;
    if a == [] {
      assert s[1..] == rest;
    } else {
      assert sep !in a[1..];
      assert s[1..] == a[1..] + [sep] + rest;
      SplitFirst(a[1..], sep, rest);
      assert [a[0]] + a[1..] == a;
      var r := Split(s[1..], sep);
      assert r[0] == a[1..] && r[1..] == Split(rest, sep);
    }
  }

  /** There is one piece more than there are separators. */
  lemma {:induction false} SplitCounts(a: string, sep: char, rest: string)
    ensures |Split(a + [sep] + rest, sep)| == |Split(a, sep)| + |Split(rest, sep)|
    ensures |Split(a, sep)| == 1 <==> sep !in a
  {
    var s := a + [sep] + rest;
    if a == [] {
      assert s[1..] == rest;
    } else {
      assert s[1..] == a[1..] + [sep] + rest;
      assert a == [a[0]] + a[1..];
      SplitCounts(a[1..], sep, rest);
    }
  }

  // ---------------------------------------------------------------- ids joined by colons

  lemma CutAtColon(a: string, rest: string, i: nat)
    requires i < |a| && a[i] == ':'
    ensures a + [':'] + rest == a[..i] + [':'] + (a[i + 1..] + [':'] + rest)
    ensures a == a[..i] + [':'] + a[i + 1..]
  {
  }

  lemma Regroup(a: string, b: string, c: string)
    ensures a + [':'] + (b + [':'] + c) == (a + [':'] + b) + [':'] + c
  {
  }

  lemma ColonIn(s: string) returns (i: nat)
    requires ':' in s
    ensures i < |s| && s[i] == ':'
  {
    i :| 0 <= i < |s| && s[i] == ':';
  }
}
