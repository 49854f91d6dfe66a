/**
 * The string operations the source relies on: substring tests (`kw in text`,
 * `text.includes(kw)`), lower-casing, `str.split("/")`, truncation and
 * rendering integers in decimal (`f"{n}"`, `${n}`).
 */
module Strings {

  /** `sub` occurs in `s` starting at index `i`. */
  predicate OccursAt(s: string, sub: string, i: nat)
  {
    i + |sub| <= |s| && s[i..i + |sub|] == sub
  }

  /** Python's `sub in s` on strings, JavaScript's `s.includes(sub)`. */
  predicate Contains(s: string, sub: string)
  {
    exists i: nat :: i <= |s| && OccursAt(s, sub, i)
  }

  lemma ContainsMiddle(a: string, b: string, c: string)
    ensures Contains(a + b + c, b)
  {
    assert OccursAt(a + b + c, b, |a|);
  }

  lemma ContainsSelf(s: string)
    ensures Contains(s, s)
  {
    assert OccursAt(s, s, 0);
  }

  /** `"".join(parts)`. */
  function Concat(parts: seq<string>): string
  {
    if parts == [] then [] else parts[0] + Concat(parts[1..])
  }

  /** Every part occurs in the concatenation. */
  lemma {:induction false} ConcatContains(parts: seq<string>, k: nat)
    requires k < |parts|
    ensures Contains(Concat(parts), parts[k])
  {
    var whole := Concat(parts);
    if k == 0 {
      assert OccursAt(whole, parts[0], 0);
    } else {
      ConcatContains(parts[1..], k - 1);
      var rest := Concat(parts[1..]);
      var i: nat :| i <= |rest| && OccursAt(rest, parts[k], i);
      assert whole[|parts[0]| + i..|parts[0]| + i + |parts[k]|] == rest[i..i + |parts[k]|];
      assert OccursAt(whole, parts[k], |parts[0]| + i);
    }
  }

  /** ASCII lower-casing of one character; every other character is kept. */
  function LowerChar(c: char): char
  {
    if 'A' <= c <= 'Z' then (c as int + 32) as char else c
  }

  /** `s.lower()` / `s.toLowerCase()`, restricted to ASCII letters. */
  function ToLower(s: string): (r: string)
    ensures |r| == |s|
    ensures forall i :: 0 <= i < |s| ==> !('A' <= r[i] <= 'Z')
  {
    seq(|s|, i requires 0 <= i < |s| => LowerChar(s[i]))
  }

  /** Index of the first `c` in `s`. */
  function IndexOf(s: string, c: char): (i: nat)
    requires c in s
    ensures i < |s| && s[i] == c && c !in s[..i]
  {
    if s[0] == c then 0
    else
      assert c in s[1..];
      var j := IndexOf(s[1..], c);
      assert s[..j + 1] == [s[0]] + s[1..][..j];
      j + 1
  }

  /** Index of the last `c` in `s`. */
  function LastIndexOf(s: string, c: char): (i: nat)
    requires c in s
    ensures i < |s| && s[i] == c && c !in s[i + 1..]
  {
    if s[|s| - 1] == c then |s| - 1
    else
      assert c in s[..|s| - 1] by {
        var k :| 0 <= k < |s| && s[k] == c;
        assert s[..|s| - 1][k] == c;
      }
      var j := LastIndexOf(s[..|s| - 1], c);
      assert s[j + 1..] == s[..|s| - 1][j + 1..] + [s[|s| - 1]];
      j
  }

  /** The first `c` of `a + [c] + b` is the one after `a` when `a` has none. */
  lemma IndexOfJoin(a: string, c: char, b: string)
    requires c !in a
    ensures c in a + [c] + b && IndexOf(a + [c] + b, c) == |a|
  {
    var s := a + [c] + b;
    assert s[|a|] == c;
    var i := IndexOf(s, c);
    assert forall j :: 0 <= j < |a| ==> s[j] == a[j];
    assert forall j :: 0 <= j < i ==> s[..i][j] == s[j];
  }

  /** Splitting `a + [c] + t` with a `c`-free `a` gives `a`, then the parts of `t`. */
  lemma SplitAfter(a: string, c: char, t: string)
    requires c !in a
    ensures Split(a + [c] + t, c) == [a] + Split(t, c)
  {
    var s := a + [c] + t;
    IndexOfJoin(a, c, t);
    assert s[..|a|] == a && s[|a| + 1..] == t;
  }

  /** `s.split(c)` for a one-character separator: never empty, and no part contains `c`. */
  function Split(s: string, c: char): (parts: seq<string>)
    ensures |parts| >= 1
    ensures forall k :: 0 <= k < |parts| ==> c !in parts[k]
    decreases |s|
  {
    if c !in s then [s]
    else
      var i := IndexOf(s, c);
      [s[..i]] + Split(s[i + 1..], c)
  }

  /** `c.join(parts)`. */
  function Join(parts: seq<string>, c: char): string
    requires |parts| >= 1
  {
    if |parts| == 1 then parts[0] else parts[0] + [c] + Join(parts[1..], c)
  }

  /** A string is what precedes position `i`, the character there, and what follows. */
  lemma CutAt(s: string, i: nat)
    requires i < |s|
    ensures s == s[..i] + [s[i]] + s[i + 1..]
  {
  }

  /** Splitting and joining again gives back the string. */
  lemma {:induction false} JoinSplit(s: string, c: char)
    ensures Join(Split(s, c), c) == s
    decreases |s|
  {
    if c in s {
      var i := IndexOf(s, c);
      JoinSplit(s[i + 1..], c);
      CutAt(s, i);
      assert Split(s, c)[1..] == Split(s[i + 1..], c);
    }
  }

  /** Joining parts free of the separator and splitting again gives back the parts. */
  lemma {:induction false} SplitJoin(parts: seq<string>, c: char)
    requires |parts| >= 1
    requires forall k :: 0 <= k < |parts| ==> c !in parts[k]
    ensures Split(Join(parts, c), c) == parts
  {
    if |parts| > 1 {
      SplitAfter(parts[0], c, Join(parts[1..], c));
      SplitJoin(parts[1..], c);
      assert parts == [parts[0]] + parts[1..];
    }
  }

  /**
   * `s.split("/")[-1]`: a `/`-free suffix of `s` that is all of `s` or
   * directly follows a `/`.
   */
  function LastSegment(s: string): (r: string)
    ensures '/' !in r
    ensures '/' !in s ==> r == s
    ensures |r| <= |s| && s[|s| - |r|..] == r
    ensures r == s || s[|s| - |r| - 1] == '/'
  {
    LastPartIsSuffix(s, '/');
    LastPartPreceded(s, '/');
    var parts := Split(s, '/');
    parts[|parts| - 1]
  }

  /** The last segment of `a/b`, for `/`-free `a` and `b`, is `b`. */
  lemma LastSegmentOfPair(a: string, b: string)
    requires '/' !in a && '/' !in b
    ensures LastSegment(a + "/" + b) == b
  {
    SplitAfter(a, '/', b);
  }

  /** The last part of a split is a suffix of the split string. */
  lemma {:induction false} LastPartIsSuffix(s: string, c: char)
    ensures var parts := Split(s, c); var last := parts[|parts| - 1];
      |last| <= |s| && s[|s| - |last|..] == last
    decreases |s|
  {
    if c in s {
      var i := IndexOf(s, c);
      LastPartIsSuffix(s[i + 1..], c);
    }
  }

  /**
   * `part` is the text between the first `c` of `s` and the next `c` or the
   * end of `s`.
   */
  ghost predicate SecondPart(s: string, c: char, part: string)
  {
    && c !in part
    && (exists i :: 0 <= i < |s| && s[i] == c && c !in s[..i]
          && i + 1 + |part| <= |s| && s[i + 1..i + 1 + |part|] == part
          && (i + 1 + |part| == |s| || s[i + 1 + |part|] == c))
  }

  /** The second part of a split is the text after the first separator, up to the next one. */
  lemma SplitSecondPart(s: string, c: char)
    requires |Split(s, c)| >= 2
    ensures SecondPart(s, c, Split(s, c)[1])
  {
    var i := IndexOf(s, c);
    var t := s[i + 1..];
    assert Split(s, c)[1] == Split(t, c)[0];
    var j := if c in t then IndexOf(t, c) else |t|;
    assert Split(t, c)[0] == t[..j];
    assert s[i + 1..i + 1 + j] == t[..j];
    assert i + 1 + j == |s| || s[i + 1 + j] == t[j];
  }

  /** `a + [c] + b + rest` regrouped around its first separator and around the start of `rest`. */
  lemma Regroup(a: string, c: char, b: string, rest: string)
    ensures a + [c] + b + rest == a + [c] + (b + rest)
    ensures rest != [] ==> b + rest == b + [rest[0]] + rest[1..]
  {
    if rest != [] {
      assert rest == [rest[0]] + rest[1..];
    }
  }

  /** Conversely, a `c`-free part between the first separator and the next one or the end is the second part. */
  lemma SplitSecond(a: string, b: string, rest: string, c: char)
    requires c !in a && c !in b && (rest == [] || rest[0] == c)
    ensures |Split(a + [c] + b + rest, c)| >= 2 && Split(a + [c] + b + rest, c)[1] == b
  {
    Regroup(a, c, b, rest);
    SplitAfter(a, c, b + rest);
    if rest != [] {
      SplitAfter(b, c, rest[1..]);
    }
  }

  /** The last part of a split is the whole string or directly follows a separator. */
  lemma {:induction false} LastPartPreceded(s: string, c: char)
    ensures var parts := Split(s, c); var last := parts[|parts| - 1];
      last == s || (|last| < |s| && s[|s| - |last| - 1] == c)
    decreases |s|
  {
    if c in s {
      var i := IndexOf(s, c);
      var t := s[i + 1..];
      var parts, tail := Split(s, c), Split(t, c);
      assert parts[|parts| - 1] == tail[|tail| - 1];
      LastPartPreceded(t, c);
      var last := tail[|tail| - 1];
      if last != t {
        assert s[|s| - |last| - 1] == t[|t| - |last| - 1];
      }
    }
  }

  /** `s.substring(0, n)`: at most the first `n` characters. */
  function Prefix(s: string, n: nat): string
  {
    if |s| <= n then s else s[..n]
  }

  function DigitChar(d: nat): (c: char)
    requires d < 10
    ensures '0' <= c <= '9'
  {
    ('0' as int + d) as char
  }

  predicate IsDigits(s: string)
  {
    forall i :: 0 <= i < |s| ==> '0' <= s[i] <= '9'
  }

  /** Decimal rendering of a natural number, without leading zeros. */
  function NatToString(n: nat): (s: string)
    ensures |s| >= 1 && IsDigits(s)
  {
    if n < 10 then [DigitChar(n)] else NatToString(n / 10) + [DigitChar(n % 10)]
  }

  /** Python's `str(n)` / JavaScript's `${n}` for an integer. */
  function IntToString(n: int): string
  {
    if n < 0 then "-" + NatToString(-n) else NatToString(n)
  }

  /** Reading a string of decimal digits. */
  function ParseDigits(s: string): nat
    requires IsDigits(s)
  {
    if s == [] then 0 else ParseDigits(s[..|s| - 1]) * 10 + (s[|s| - 1] as int - '0' as int)
  }

  /** Reading back a rendered number gives the number. */
  lemma {:induction false} ParseNatToString(n: nat)
    ensures ParseDigits(NatToString(n)) == n
  {
    if n >= 10 {
      ParseNatToString(n / 10);
      var s := NatToString(n);
      assert s[..|s| - 1] == NatToString(n / 10);
    }
  }

  lemma NatToStringInjective(a: nat, b: nat)
    requires NatToString(a) == NatToString(b)
    ensures a == b
  {
    ParseNatToString(a);
    ParseNatToString(b);
  }
}
