/** The JavaScript string operations the engine relies on, over `seq<char>`:
    `startsWith`, `includes`, `replace` with a string pattern (first occurrence
    only), `replace(/[IVX]/g, '')`, `indexOf` on an array, and ASCII case
    conversion. */
module Strings {

  /** `s.startsWith(p)` */
  predicate StartsWith(s: string, p: string) {
    |p| <= |s| && s[..|p|] == p
  }

  /** `s.includes(p)`: `p` occurs in `s` at some position. */
  predicate Contains(s: string, p: string)
    decreases |s|
  {
    StartsWith(s, p) || (|s| > 0 && Contains(s[1..], p))
  }

  /** `s.replace(p, r)` for a string pattern `p`: only the first occurrence is
      replaced; an empty pattern inserts `r` at the front. */
  function ReplaceFirst(s: string, p: string, r: string): (t: string)
    decreases |s|
  {
    if StartsWith(s, p) then r + s[|p|..]
    else if |s| == 0 then s
    else [s[0]] + ReplaceFirst(s[1..], p, r)
  }

  /** `s.replace(/[...]/g, '')`: every character of `cs` deleted. */
  function RemoveChars(s: string, cs: set<char>): (t: string)
    ensures |t| <= |s|
    ensures forall c :: c in t <==> c in s && c !in cs
  {
    if |s| == 0 then ""
    else if s[0] in cs then RemoveChars(s[1..], cs)
    else [s[0]] + RemoveChars(s[1..], cs)
  }

  /** `xs.indexOf(x)`: the first position holding `x`, or -1. */
  function IndexOf<T(==)>(xs: seq<T>, x: T): (i: int)
    ensures -1 <= i < |xs|
    ensures i >= 0 ==> xs[i] == x && forall j :: 0 <= j < i ==> xs[j] != x
    ensures i == -1 <==> x !in xs
  {
    if |xs| == 0 then -1
    else if xs[0] == x then 0
    else var j := IndexOf(xs[1..], x); if j == -1 then -1 else j + 1
  }

  /** `xs.slice(0, n)`: the first n elements, or all of them when there are
      fewer. */
  function Take<T>(xs: seq<T>, n: nat): (ys: seq<T>)
    ensures |ys| == if |xs| < n then |xs| else n
    ensures forall i :: 0 <= i < |ys| ==> ys[i] == xs[i]
  {
    if |xs| < n then xs else xs[..n]
  }

  /** `c.toUpperCase()` on the ASCII letters; every other character unchanged. */
  function UpperChar(c: char): (u: char)
    ensures 'a' <= c <= 'z' ==> 'A' <= u <= 'Z' && u as int == c as int - 32
    ensures !('a' <= c <= 'z') ==> u == c
  {
    if 'a' <= c <= 'z' then (c as int - 32) as char else c
  }

  /** `c.toLowerCase()` on the ASCII letters; every other character unchanged. */
  function LowerChar(c: char): (l: char)
    ensures 'A' <= c <= 'Z' ==> 'a' <= l <= 'z' && l as int == c as int + 32
    ensures !('A' <= c <= 'Z') ==> l == c
  {
    if 'A' <= c <= 'Z' then (c as int + 32) as char else c
  }

  /** `s.toLowerCase()` on ASCII text. */
  function LowerCase(s: string): (t: string)
    ensures |t| == |s|
    ensures forall i :: 0 <= i < |s| ==> t[i] == LowerChar(s[i])
  {
    seq(|s|, i requires 0 <= i < |s| => LowerChar(s[i]))
  }

  /** A string equals its lower-case form exactly when it has no upper-case
      ASCII letter. */
  lemma LowerCaseFixed(s: string)
    ensures LowerCase(s) == s <==> forall i :: 0 <= i < |s| ==> !('A' <= s[i] <= 'Z')
  {
    if LowerCase(s) == s {
      forall i | 0 <= i < |s| ensures !('A' <= s[i] <= 'Z') {
        assert LowerCase(s)[i] == s[i];
      }
    }
  }

  /** Replacing a pattern that does not occur changes nothing. */
  lemma {:induction false} ReplaceAbsent(s: string, p: string, r: string)
    requires !Contains(s, p)
    ensures ReplaceFirst(s, p, r) == s
    decreases |s|
  {
    if |s| > 0 {
      ReplaceAbsent(s[1..], p, r);
      assert [s[0]] + s[1..] == s;
    }
  }

  /** Replacing a pattern by itself changes nothing (`replace('+', '+')`). */
  lemma {:induction false} ReplaceSelf(s: string, p: string)
    ensures ReplaceFirst(s, p, p) == s
    decreases |s|
  {
    if StartsWith(s, p) {
      assert s[..|p|] + s[|p|..] == s;
    } else if |s| > 0 {
      ReplaceSelf(s[1..], p);
      assert [s[0]] + s[1..] == s;
    }
  }

  /** Every character of an occurring pattern occurs in the string. */
  lemma {:induction false} ContainsChar(s: string, p: string, c: char)
    requires Contains(s, p) && c in p
    ensures c in s
    decreases |s|
  {
    if StartsWith(s, p) {
      var k :| 0 <= k < |p| && p[k] == c;
      assert s[k] == s[..|p|][k];
    } else {
      ContainsChar(s[1..], p, c);
    }
  }

  /** A one-character pattern occurs exactly when the character does. */
  lemma {:induction false} ContainsSingle(s: string, c: char)
    ensures Contains(s, [c]) <==> c in s
    decreases |s|
  {
    if |s| > 0 {
      ContainsSingle(s[1..], c);
      assert s == [s[0]] + s[1..];
    }
  }

  /** Where a pattern occurs, so does every infix `p[a..b]` of it
      (e.g. `dim7` contains `m7`). */
  lemma {:induction false} ContainsInfix(s: string, p: string, a: nat, b: nat)
    requires Contains(s, p) && a <= b <= |p|
    ensures Contains(s, p[a..b])
    decreases |s|
  {
    if StartsWith(s, p) {
      StartsWithInfix(s, p, a, b);
    } else {
      ContainsInfix(s[1..], p, a, b);
    }
  }

  lemma {:induction false} StartsWithInfix(s: string, p: string, a: nat, b: nat)
    requires StartsWith(s, p) && a <= b <= |p|
    ensures Contains(s, p[a..b])
    decreases a
  {
    if a == 0 {
      assert s[..b] == s[..|p|][..b];
    } else {
      assert StartsWith(s[1..], p[1..]) by {
        assert s[1..][..|p| - 1] == s[..|p|][1..];
      }
      StartsWithInfix(s[1..], p[1..], a - 1, b - 1);
      assert p[1..][a - 1..b - 1] == p[a..b];
    }
  }

  /** A pattern found at position k occurs. */
  lemma {:induction false} ContainsAt(s: string, p: string, k: nat)
    requires k + |p| <= |s| && s[k..k + |p|] == p
    ensures Contains(s, p)
    decreases k
  {
    if k == 0 {
      assert s[..|p|] == s[0..|p|];
    } else {
      assert s[1..][k - 1..k - 1 + |p|] == s[k..k + |p|];
      ContainsAt(s[1..], p, k - 1);
    }
  }

  /** A two-character pattern occurs only where its two characters stand
      side by side. */
  lemma {:induction false} ContainsPair(s: string, a: char, b: char)
    requires Contains(s, [a, b])
    ensures exists k :: 0 <= k < |s| - 1 && s[k] == a && s[k + 1] == b
    decreases |s|
  {
    if StartsWith(s, [a, b]) {
      assert s[..2][0] == s[0] && s[..2][1] == s[1];
    } else {
      ContainsPair(s[1..], a, b);
      var k :| 0 <= k < |s[1..]| - 1 && s[1..][k] == a && s[1..][k + 1] == b;
      assert s[k + 1] == a && s[k + 2] == b;
    }
  }

  /** Deleting characters that do not occur changes nothing. */
  lemma {:induction false} RemoveAbsent(s: string, cs: set<char>)
    requires forall i | 0 <= i < |s| :: s[i] !in cs
    ensures RemoveChars(s, cs) == s
    decreases |s|
  {
    if |s| > 0 {
      RemoveAbsent(s[1..], cs);
      assert [s[0]] + s[1..] == s;
    }
  }

  /** A pattern holding a character the string lacks is not replaced. */
  lemma ReplaceMissingChar(s: string, p: string, r: string, c: char)
    requires c in p && c !in s
    ensures ReplaceFirst(s, p, r) == s
  {
    if Contains(s, p) {
      ContainsChar(s, p, c);
    }
    ReplaceAbsent(s, p, r);
  }
}
