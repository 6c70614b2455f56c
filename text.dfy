/** String helpers shared by the other modules: substring occurrence (the reference
    definition the providers' hand-written searches are proved against) and the
    decimal rendering that fmt's %d produces. Strings are Go strings, that is byte
    strings, so |s| is Go's len(s). */
module Text {

  /** sub occurs in s starting at index i. */
  ghost predicate OccursAt(sub: string, s: string, i: int)
  {
    0 <= i && i + |sub| <= |s| && s[i..i + |sub|] == sub
  }

  /** sub is a contiguous substring of s (the reference definition). */
  ghost predicate IsSubstring(sub: string, s: string)
  {
    exists i :: OccursAt(sub, s, i)
  }

  /** Executable substring test, used by the pure parts of the model. */
  predicate Occurs(sub: string, s: string)
    decreases |s|
  {
    |sub| <= |s| && (s[..|sub|] == sub || (|s| > 0 && Occurs(sub, s[1..])))
  }

  lemma {:induction false} OccursIsSubstring(sub: string, s: string)
    ensures Occurs(sub, s) <==> IsSubstring(sub, s)
    decreases |s|
  {
    if |sub| > |s| {
    } else if s[..|sub|] == sub {
      assert OccursAt(sub, s, 0);
    } else {
      OccursIsSubstring(sub, s[1..]);
      if Occurs(sub, s[1..]) {
        var i :| OccursAt(sub, s[1..], i);
        DropOneSlice(s, i, |sub|);
        assert OccursAt(sub, s, i + 1);
      }
      if IsSubstring(sub, s) {
        var i :| OccursAt(sub, s, i);
        assert i != 0;
        DropOneSlice(s, i - 1, |sub|);
        assert OccursAt(sub, s[1..], i - 1);
      }
    }
  }

  /** A slice of s[1..] is the slice of s one place further on. */
  lemma DropOneSlice(s: string, i: int, n: int)
    requires 0 <= i && 0 <= n && i + 1 + n <= |s|
    ensures s[1..][i..i + n] == s[i + 1..i + 1 + n]
  {
    var a, b := s[1..][i..i + n], s[i + 1..i + 1 + n];
    assert forall k :: 0 <= k < n ==> a[k] == b[k];
  }

  /** The empty string occurs in every string, including the empty one. */
  lemma EmptyOccurs(s: string)
    ensures IsSubstring([], s)
  {
    assert OccursAt([], s, 0);
  }

  /** A string longer than s does not occur in s; one of s's length occurs only if it is s. */
  lemma OccursByLength(sub: string, s: string)
    ensures |sub| > |s| ==> !IsSubstring(sub, s)
    ensures |sub| == |s| ==> (IsSubstring(sub, s) <==> sub == s)
  {
    if IsSubstring(sub, s) {
      var i :| OccursAt(sub, s, i);
      assert |sub| == |s| ==> i == 0 && s[0..|s|] == s;
    }
    if |sub| == |s| && sub == s {
      assert s[0..|s|] == s;
      assert OccursAt(sub, s, 0);
    }
  }

  /** A string occurs in any string built around it. */
  lemma OccursInside(u: string, sub: string, v: string)
    ensures OccursAt(sub, u + sub + v, |u|)
    ensures OccursAt(sub, u + (sub + v), |u|)
    ensures OccursAt(sub, u + sub, |u|)
    ensures OccursAt(sub, sub + v, 0)
  {
    assert (u + sub + v)[|u|..|u| + |sub|] == sub;
    assert u + (sub + v) == u + sub + v;
    assert (u + sub)[|u|..|u| + |sub|] == sub;
    assert (sub + v)[0..|sub|] == sub;
  }

  /** Each of three strings written one after another occurs where the ones
      before it end. */
  lemma LayoutOfThree(a: string, b: string, c: string)
    ensures var s := a + b + c;
      && |s| == |a| + |b| + |c|
      && OccursAt(a, s, 0) && OccursAt(b, s, |a|) && OccursAt(c, s, |a| + |b|)
  {
    var s := a + b + c;
    assert s[0..|a|] == a;
    assert s[|a|..|a| + |b|] == b;
    assert s[|a| + |b|..|s|] == c;
  }

  /** Each of six strings written one after another occurs where the ones
      before it end. */
  lemma LayoutOfSix(a: string, b: string, c: string, d: string, e: string, f: string)
    ensures var s := a + b + c + d + e + f;
      && |s| == |a| + |b| + |c| + |d| + |e| + |f|
      && OccursAt(a, s, 0) && OccursAt(b, s, |a|) && OccursAt(c, s, |a| + |b|)
      && OccursAt(d, s, |a| + |b| + |c|) && OccursAt(e, s, |a| + |b| + |c| + |d|)
      && OccursAt(f, s, |a| + |b| + |c| + |d| + |e|)
  {
    var s := a + b + c + d + e + f;
    var i1, i2, i3 := |a|, |a| + |b|, |a| + |b| + |c|;
    var i4, i5 := i3 + |d|, i3 + |d| + |e|;
    assert s[0..i1] == a;
    assert s[i1..i2] == b;
    assert s[i2..i3] == c;
    assert s[i3..i4] == d;
    assert s[i4..i5] == e;
    assert s[i5..|s|] == f;
  }

  /** The characters of an occurrence are those of the substring. */
  lemma OccursAtChar(sub: string, s: string, i: int, k: int)
    requires OccursAt(sub, s, i) && 0 <= k < |sub|
    ensures s[i + k] == sub[k]
  {
    assert s[i..i + |sub|][k] == sub[k];
  }

  /** Occurrence is transitive: a substring of a substring of s is a substring of s. */
  lemma OccursAtTransitive(a: string, b: string, s: string, i: int, j: int)
    requires OccursAt(a, b, i) && OccursAt(b, s, j)
    ensures OccursAt(a, s, i + j)
  {
    var x, y := s[i + j..i + j + |a|], b[i..i + |a|];
    assert forall k :: 0 <= k < |a| ==> x[k] == y[k];
  }

  /** Some word of words occurs in s (Occurs applied to each in turn). */
  predicate OccursAny(words: seq<string>, s: string)
  {
    exists i :: 0 <= i < |words| && Occurs(words[i], s)
  }

  /** A message matches a keyword list exactly when one of the keywords is a
      substring of it. */
  lemma OccursAnyIsSubstring(words: seq<string>, s: string)
    ensures OccursAny(words, s) <==> exists i :: 0 <= i < |words| && IsSubstring(words[i], s)
  {
    forall i | 0 <= i < |words|
      ensures Occurs(words[i], s) <==> IsSubstring(words[i], s)
    {
      OccursIsSubstring(words[i], s);
    }
  }

  /** The providers' contains(s, substr): try every start index from 0 to
      len(s) - len(substr) in turn; no index is tried when substr is longer. */
  method Contains(s: string, sub: string) returns (found: bool)
    ensures found <==> IsSubstring(sub, s)
  {
    var i := 0;
    while i <= |s| - |sub|
      invariant 0 <= i
      invariant |sub| <= |s| ==> i <= |s| - |sub| + 1
      invariant forall j :: 0 <= j < i ==> !OccursAt(sub, s, j)
      decreases |s| - |sub| - i
    {
      if s[i..i + |sub|] == sub {
        assert OccursAt(sub, s, i);
        return true;
      }
      i := i + 1;
    }
    assert forall j :: !OccursAt(sub, s, j);
    return false;
  }

  /** The number a string of decimal digits denotes, read from the left. */
  function Value(r: string): int
  {
    if r == [] then 0 else 10 * Value(r[..|r| - 1]) + (r[|r| - 1] as int - '0' as int)
  }

  /** Decimal digits of n, as fmt's %d prints a non-negative int: they read back
      as n, and only 0 itself starts with a zero. */
  function NatToString(n: nat): (r: string)
    ensures |r| >= 1
    ensures forall i :: 0 <= i < |r| ==> '0' <= r[i] <= '9'
    ensures Value(r) == n
    ensures n < 10 ==> |r| == 1
    ensures n >= 10 ==> r[0] != '0'
  {
    if n < 10 then
      var r := [Digit(n)];
      assert r[..0] == [];
      r
    else
      var r := NatToString(n / 10) + [Digit(n % 10)];
      assert r[..|r| - 1] == NatToString(n / 10);
      r
  }

  function Digit(d: nat): (c: char)
    requires d < 10
    ensures '0' <= c <= '9'
    ensures c as int - '0' as int == d
  {
    ('0' as int + d) as char
  }
}
