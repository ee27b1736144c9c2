/** The string operations of Python's `str` that the pipeline relies on, on
    `string` = `seq<char>`: `lower`, `startswith`, `in`, `count`, `strip`,
    `split` and `replace(old, '')`. Lower-casing is ASCII; white space is
    what `str.isspace` accepts. */
module Text {

  /** `c.isspace()`: the ASCII controls 9-13 and 28-31, the space, and the
      Unicode separators and spaces Python strips. */
  predicate IsSpace(c: char)
  {
    var n := c as int;
    || 9 <= n <= 13 || 28 <= n <= 32 || n == 0x85 || n == 0xA0 || n == 0x1680
    || 0x2000 <= n <= 0x200A || n == 0x2028 || n == 0x2029 || n == 0x202F
    || n == 0x205F || n == 0x3000
  }

  function LowerChar(c: char): char
  {
    if 'A' <= c <= 'Z' then (c as int + 32) as char else c
  }

  /** `s.lower()` restricted to ASCII letters. */
  function Lower(s: string): (r: string)
    ensures |r| == |s|
    ensures forall i :: 0 <= i < |s| ==> r[i] == LowerChar(s[i])
  {
    seq(|s|, i requires 0 <= i < |s| => LowerChar(s[i]))
  }

  /** No upper-case letter is left after lower-casing, every other character
      stays where it was, and a text is left as it is exactly when it holds
      no upper-case letter. */
  lemma LowerCharacterised(s: string)
    ensures forall i :: 0 <= i < |s| ==> !('A' <= Lower(s)[i] <= 'Z')
    ensures forall i :: 0 <= i < |s| && !('A' <= s[i] <= 'Z') ==> Lower(s)[i] == s[i]
    ensures Lower(s) == s <==> forall i :: 0 <= i < |s| ==> !('A' <= s[i] <= 'Z')
  {
    if forall i :: 0 <= i < |s| ==> !('A' <= s[i] <= 'Z') {
      assert forall i :: 0 <= i < |s| ==> Lower(s)[i] == s[i];
    }
  }

  /** `s.startswith(p)`. */
  predicate StartsWith(s: string, p: string)
  {
    |p| <= |s| && s[..|p|] == p
  }

  /** `k in s`: `k` occurs in `s` as a contiguous substring. */
  predicate Contains(s: string, k: string)
    decreases |s|
  {
    StartsWith(s, k) || (s != [] && Contains(s[1..], k))
  }

  /** `s.count(k)`: the number of non-overlapping occurrences of `k`, scanning
      from the left; Python counts `|s| + 1` empty occurrences. */
  function Count(s: string, k: string): nat
    decreases |s|
  {
    if k == [] then |s| + 1
    else if |s| < |k| then 0
    else if s[..|k|] == k then 1 + Count(s[|k|..], k)
    else Count(s[1..], k)
  }

  /** `any(k in s for k in keys)`. */
  predicate ContainsAny(s: string, keys: seq<string>)
  {
    keys != [] && (ContainsAny(s, keys[..|keys| - 1]) || Contains(s, keys[|keys| - 1]))
  }

  /** `sum(s.count(k) for k in keys)`. */
  function Hits(s: string, keys: seq<string>): nat
  {
    if keys == [] then 0 else Hits(s, keys[..|keys| - 1]) + Count(s, keys[|keys| - 1])
  }

  /** `s.lstrip()`: drops the leading white space and nothing else. */
  function LStrip(s: string): (r: string)
    ensures |r| <= |s| && r == s[|s| - |r|..]
    ensures r != [] ==> !IsSpace(r[0])
    ensures forall i :: 0 <= i < |s| - |r| ==> IsSpace(s[i])
  {
    if s != [] && IsSpace(s[0]) then LStrip(s[1..]) else s
  }

  /** `s.rstrip()`: drops the trailing white space and nothing else. */
  function RStrip(s: string): (r: string)
    ensures |r| <= |s| && r == s[..|r|]
    ensures r != [] ==> !IsSpace(r[|r| - 1])
    ensures forall i :: |r| <= i < |s| ==> IsSpace(s[i])
  {
    if s != [] && IsSpace(s[|s| - 1]) then RStrip(s[..|s| - 1]) else s
  }

  /** `s.strip()`. */
  function Strip(s: string): string
  {
    RStrip(LStrip(s))
  }

  /** `sep.join(parts)`. */
  function JoinWith(parts: seq<string>, sep: string): string
  {
    if parts == [] then []
    else if |parts| == 1 then parts[0]
    else JoinWith(parts[..|parts| - 1], sep) + sep + parts[|parts| - 1]
  }

  /** The first element of a list, or "" for an empty one. */
  function FirstOr(xs: seq<string>): string
  {
    if xs == [] then [] else xs[0]
  }

  /** `s.split(c)` for a one-character separator. */
  function SplitOn(s: string, c: char): (parts: seq<string>)
    ensures |parts| >= 1
    ensures forall i :: 0 <= i < |parts| ==> c !in parts[i]
    ensures StartsWith(s, parts[0])
  {
    if s == [] then [[]]
    else if s[0] == c then [[]] + SplitOn(s[1..], c)
    else
      var rest := SplitOn(s[1..], c);
      [[s[0]] + rest[0]] + rest[1..]
  }

  /** `c.join(parts)` for a one-character separator. */
  function JoinOn(parts: seq<string>, c: char): string
    requires |parts| >= 1
  {
    if |parts| == 1 then parts[0] else parts[0] + [c] + JoinOn(parts[1..], c)
  }

  /** `s.replace(p, '')`: removes the non-overlapping occurrences of `p` found
      scanning from the left. */
  function RemoveAll(s: string, p: string): string
    decreases |s|
  {
    if p == [] || |s| < |p| then s
    else if s[..|p|] == p then RemoveAll(s[|p|..], p)
    else [s[0]] + RemoveAll(s[1..], p)
  }

  /** Splitting and joining on the same separator give back the string. */
  lemma {:induction false} JoinSplit(s: string, c: char)
    ensures JoinOn(SplitOn(s, c), c) == s
  {
    if s != [] {
      JoinSplit(s[1..], c);
      var rest := SplitOn(s[1..], c);
      if s[0] != c && |rest| > 1 {
        assert rest == [rest[0]] + rest[1..];
        assert JoinOn(rest, c) == rest[0] + [c] + JoinOn(rest[1..], c);
      }
    }
  }

  /** A keyword is counted at least once exactly when it occurs (the empty
      keyword occurs everywhere and is counted `|s| + 1` times). */
  lemma {:induction false} CountPositiveIffContains(s: string, k: string)
    ensures Count(s, k) > 0 <==> Contains(s, k)
    decreases |s|
  {
    if k == [] {
      assert StartsWith(s, k);
    } else if |s| >= |k| && s[..|k|] != k {
      CountPositiveIffContains(s[1..], k);
    } else if |s| < |k| {
      NotContainsShort(s, k);
    }
  }

  lemma {:induction false} NotContainsShort(s: string, k: string)
    requires |s| < |k|
    ensures !Contains(s, k)
    decreases |s|
  {
    if s != [] {
      NotContainsShort(s[1..], k);
    }
  }

  /** A sum of keyword counts is zero exactly when no keyword occurs. */
  lemma {:induction false} HitsZeroIffNoneOccurs(s: string, keys: seq<string>)
    ensures Hits(s, keys) == 0 <==> !ContainsAny(s, keys)
  {
    if keys != [] {
      HitsZeroIffNoneOccurs(s, keys[..|keys| - 1]);
      CountPositiveIffContains(s, keys[|keys| - 1]);
    }
  }

  /** `any` over a list of keywords, stated with an index. */
  lemma {:induction false} ContainsAnyIff(s: string, keys: seq<string>)
    ensures ContainsAny(s, keys) <==> exists i :: 0 <= i < |keys| && Contains(s, keys[i])
  {
    if keys != [] {
      var init := keys[..|keys| - 1];
      ContainsAnyIff(s, init);
      if i :| 0 <= i < |init| && Contains(s, init[i]) {
        assert keys[i] == init[i];
      }
      if i :| 0 <= i < |keys| && Contains(s, keys[i]) {
        if i < |init| {
          assert keys[i] == init[i];
        }
      }
    }
  }

  lemma {:induction false} ContainsAnyAppend(s: string, a: seq<string>, b: seq<string>)
    ensures ContainsAny(s, a + b) <==> ContainsAny(s, a) || ContainsAny(s, b)
  {
    ContainsAnyIff(s, a);
    ContainsAnyIff(s, b);
    ContainsAnyIff(s, a + b);
    if i :| 0 <= i < |a + b| && Contains(s, (a + b)[i]) {
      if i >= |a| {
        assert (a + b)[i] == b[i - |a|];
      }
    }
    if i :| 0 <= i < |a| && Contains(s, a[i]) {
      assert (a + b)[i] == a[i];
    }
    if i :| 0 <= i < |b| && Contains(s, b[i]) {
      assert (a + b)[|a| + i] == b[i];
    }
  }

  /** A keyword that occurs in `a` occurs in `a + b`. */
  /** A string contains every one of its prefixes. */
  lemma PrefixContained(k: string, rest: string)
    ensures Contains(k + rest, k)
  {
    assert (k + rest)[..|k|] == k;
  }

  lemma {:induction false} ContainsPrefix(a: string, b: string, k: string)
    requires Contains(a, k)
    ensures Contains(a + b, k)
    decreases |a|
  {
    if StartsWith(a, k) {
      assert (a + b)[..|k|] == a[..|k|];
    } else {
      ContainsPrefix(a[1..], b, k);
      assert (a + b)[1..] == a[1..] + b;
    }
  }

  /** A keyword that occurs in `b` occurs in `a + b`. */
  lemma {:induction false} ContainsSuffix(a: string, b: string, k: string)
    requires Contains(b, k)
    ensures Contains(a + b, k)
    decreases |a|
  {
    if a == [] {
      assert a + b == b;
    } else {
      ContainsSuffix(a[1..], b, k);
      assert (a + b)[1..] == a[1..] + b;
    }
  }

  /** The tail of a keyword occurs wherever the keyword does. */
  lemma {:induction false} ContainsKeyTail(s: string, a: string, b: string)
    requires Contains(s, a + b)
    ensures Contains(s, b)
    decreases |s|
  {
    if StartsWith(s, a + b) {
      var rest := s[|a|..];
      forall j | 0 <= j < |b|
        ensures rest[j] == b[j]
      {
        assert rest[j] == s[..|a + b|][|a| + j];
      }
      assert rest[..|b|] == b;
      assert StartsWith(rest, b);
      ContainsSuffix(s[..|a|], rest, b);
      assert s[..|a|] + s[|a|..] == s;
    } else {
      ContainsKeyTail(s[1..], a, b);
    }
  }

  /** Removing a pattern from a string that starts with it drops that leading
      occurrence first. */
  lemma RemoveAllLeading(p: string, d: string)
    requires p != []
    ensures RemoveAll(p + d, p) == RemoveAll(d, p)
  {
    assert (p + d)[..|p|] == p;
    assert (p + d)[|p|..] == d;
  }

  /** Removing a pattern that does not occur changes nothing. */
  lemma {:induction false} RemoveAllAbsent(d: string, p: string)
    requires !Contains(d, p)
    ensures RemoveAll(d, p) == d
    decreases |d|
  {
    if p != [] && |d| >= |p| {
      RemoveAllAbsent(d[1..], p);
      assert d == [d[0]] + d[1..];
    }
  }
}
