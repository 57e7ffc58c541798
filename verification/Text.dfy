/** The string operations the codec relies on: substring search, splitting at a
    character and trimming white space. Bytes and ASCII characters are identified. */
module Text {
  import opened Wrappers

  predicate HasAt(s: string, t: string, i: int) {
    0 <= i <= i + |t| <= |s| && s[i..i + |t|] == t
  }

  predicate Contains(s: string, t: string) {
    exists i | 0 <= i <= |s| :: HasAt(s, t, i)
  }

  /** The first occurrence of `t` in `s` at or after `i`. */
  function FindFrom(s: string, t: string, i: nat): (r: Option<nat>)
    requires i <= |s|
    ensures r.Some? ==> i <= r.value && HasAt(s, t, r.value) && forall j | i <= j < r.value :: !HasAt(s, t, j)
    ensures r.None? ==> forall j | i <= j <= |s| :: !HasAt(s, t, j)
    decreases |s| - i
  {
    if HasAt(s, t, i) then Some(i)
    else if i == |s| then None
    else FindFrom(s, t, i + 1)
  }

  function Find(s: string, t: string): (r: Option<nat>)
    ensures r.Some? ==> HasAt(s, t, r.value) && forall j | 0 <= j < r.value :: !HasAt(s, t, j)
    ensures r.Some? <==> Contains(s, t)
  {
    FindFrom(s, t, 0)
  }

  lemma FindIs(s: string, t: string, i: nat)
    requires HasAt(s, t, i)
    requires forall j | 0 <= j < i :: !HasAt(s, t, j)
    ensures Find(s, t) == Some(i)
  {
  }

  /** An occurrence inside the left operand is an occurrence of the concatenation, and back. */
  lemma HasAtPrefix(a: string, b: string, t: string, i: int)
    requires 0 <= i && i + |t| <= |a|
    ensures HasAt(a + b, t, i) <==> HasAt(a, t, i)
  {
    assert (a + b)[i..i + |t|] == a[i..i + |t|];
  }

  lemma HasAtSuffix(a: string, b: string, t: string, i: int)
    requires |a| <= i
    ensures HasAt(a + b, t, i) <==> HasAt(b, t, i - |a|)
  {
    if i + |t| <= |a + b| {
      assert (a + b)[i..i + |t|] == b[i - |a|..i - |a| + |t|];
    }
  }

  lemma NoStraddle(a: string, sep: char, b: string, t: string, i: int)
    requires sep !in t && HasAt(a + [sep] + b, t, i)
    ensures i + |t| <= |a| || |a| < i
  {
    var s := a + [sep] + b;
    assert s[|a|] == sep;
    assert forall k | 0 <= k < |t| :: s[i + k] == s[i..i + |t|][k] == t[k] && t[k] in t;
    assert |a| == i + (|a| - i);
  }

  /** A token without the character `sep` cannot straddle it. */
  lemma ContainsAcross(a: string, sep: char, b: string, t: string)
    requires sep !in t
    ensures Contains(a + [sep] + b, t) <==> Contains(a, t) || Contains(b, t)
  {
    var s := a + [sep] + b;
    forall i | HasAt(s, t, i)
      ensures Contains(a, t) || Contains(b, t)
    {
      NoStraddle(a, sep, b, t, i);
      PlaceOccurrence(a, sep, b, t, i);
    }
    if Contains(a, t) {
      var i :| 0 <= i <= |a| && HasAt(a, t, i);
      PlaceOccurrence(a, sep, b, t, i);
    }
    if Contains(b, t) {
      var i :| 0 <= i <= |b| && HasAt(b, t, i);
      PlaceOccurrence(a, sep, b, t, i + |a| + 1);
    }
  }

  lemma PlaceOccurrence(a: string, sep: char, b: string, t: string, i: int)
    requires i + |t| <= |a| || |a| < i
    ensures HasAt(a + [sep] + b, t, i) <==> if |a| < i then HasAt(b, t, i - |a| - 1) else HasAt(a, t, i)
  {
    if |a| < i {
      HasAtSuffix(a + [sep], b, t, i);
    } else if 0 <= i {
      assert a + [sep] + b == a + ([sep] + b);
      HasAtPrefix(a, [sep] + b, t, i);
    }
  }

  /** A token needs each of its characters. */
  lemma NeedsLetter(s: string, t: string, c: char)
    requires c in t
    ensures Contains(s, t) ==> c in s
  {
    if Contains(s, t) {
      var i :| 0 <= i <= |s| && HasAt(s, t, i);
      var k :| 0 <= k < |t| && t[k] == c;
      assert s[i + k] == s[i..i + |t|][k];
    }
  }

  /** Position of the first `c` in `s`, or the length of `s`. */
  function First(s: string, c: char): (i: nat)
    ensures i <= |s| && c !in s[..i]
    ensures i < |s| ==> s[i] == c
  {
    if s == "" || s[0] == c then 0
    else
      var i := 1 + First(s[1..], c);
      assert s[..i] == [s[0]] + s[1..][..i - 1];
      i
  }

  /** The pieces of `s` between separators; there is always at least one. */
  function Split(s: string, sep: char): (parts: seq<string>)
    ensures |parts| >= 1
    decreases |s|
  {
    var i := First(s, sep);
    if i == |s| then [s] else [s[..i]] + Split(s[i + 1..], sep)
  }

  lemma SplitWhole(s: string, sep: char)
    requires sep !in s
    ensures Split(s, sep) == [s]
  {
  }

  lemma SplitAt(a: string, sep: char, b: string)
    requires sep !in a
    ensures Split(a + [sep] + b, sep) == [a] + Split(b, sep)
  {
    var s := a + [sep] + b;
    var i := First(s, sep);
    assert s[|a|] == sep && forall k | 0 <= k < |a| :: s[k] == a[k] && a[k] in a;
    assert forall k | 0 <= k < i :: s[k] in s[..i];
    assert s[..i] == a && s[i + 1..] == b;
  }

  lemma {:induction false} SplitPiecesClean(s: string, sep: char, k: nat)
    requires k < |Split(s, sep)|
    ensures sep !in Split(s, sep)[k]
    decreases |s|
  {
    var i := First(s, sep);
    if i == |s| {
      assert s[..i] == s;
    } else if k > 0 {
      SplitPiecesClean(s[i + 1..], sep, k - 1);
    }
  }

  /** A separator present in `s` gives at least two pieces; the first is what precedes it. */
  lemma SplitSeveral(s: string, sep: char)
    requires sep in s
    ensures |Split(s, sep)| >= 2
  {
    assert s[..|s|] == s;
  }

  predicate IsSpace(c: char) {
    c == ' ' || '\t' <= c <= '\r'
  }

  function TrimStart(s: string): (r: string)
    ensures |r| <= |s|
    ensures r == "" || !IsSpace(r[0])
  {
    if s != "" && IsSpace(s[0]) then TrimStart(s[1..]) else s
  }

  function TrimEnd(s: string): (r: string)
    ensures |r| <= |s| && r == s[..|r|]
    ensures r == "" || !IsSpace(r[|r| - 1])
  {
    if s != "" && IsSpace(s[|s| - 1]) then
      var r := TrimEnd(s[..|s| - 1]);
      assert s[..|s| - 1][..|r|] == s[..|r|];
      r
    else s
  }

  function Trim(s: string): string {
    TrimEnd(TrimStart(s))
  }

  predicate Trimmed(s: string) {
    s == "" || (!IsSpace(s[0]) && !IsSpace(s[|s| - 1]))
  }

  lemma TrimFixesExactlyTrimmed(s: string)
    ensures Trim(s) == s <==> Trimmed(s)
    ensures Trim([' '] + s) == Trim(s)
  {
    assert ([' '] + s)[1..] == s;
  }
}
