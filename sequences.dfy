/**
 * Sequence helpers shared by the backend and the two web pages: filtering,
 * first-occurrence de-duplication (Python's `seen` set loop and JavaScript's
 * `[...new Set(xs)]`), occurrence counters (a dict or object incremented per
 * element) and sums.
 */
module Sequences {

  /** `[f(x) for x in s]` / `s.map(f)`. */
  function MapSeq<T, U>(s: seq<T>, f: T -> U): (r: seq<U>)
    ensures |r| == |s|
    ensures forall i :: 0 <= i < |s| ==> r[i] == f(s[i])
  {
    seq(|s|, i requires 0 <= i < |s| => f(s[i]))
  }

  /** `s[:n]`: the first `n` elements, or all of `s` when it is shorter. */
  function Take<T>(s: seq<T>, n: nat): (r: seq<T>)
    ensures |r| == if |s| < n then |s| else n
    ensures r == s[..|r|]
  {
    if |s| < n then s else s[..n]
  }

  /** Keeping `n + 1` of `[x] + s` is keeping `x` and `n` of `s`. */
  lemma TakeCons<T>(x: T, s: seq<T>, n: nat)
    ensures Take([x] + s, n + 1) == [x] + Take(s, n)
  {
    if n < |s| {
      assert ([x] + s)[..n + 1] == [x] + s[..n];
    }
  }

  /** `[x for x in s if keep(x)]` / `s.filter(keep)`. */
  function Filter<T(==)>(s: seq<T>, keep: T -> bool): (r: seq<T>)
    ensures |r| <= |s|
    ensures forall x :: x in r ==> x in s && keep(x)
  {
    if s == [] then [] else (if keep(s[0]) then [s[0]] else []) + Filter(s[1..], keep)
  }

  /** Filtering keeps every occurrence of a kept value and none of a dropped one. */
  lemma {:induction false} FilterCount<T>(s: seq<T>, keep: T -> bool, x: T)
    ensures multiset(Filter(s, keep))[x] == if keep(x) then multiset(s)[x] else 0
  {
    if s != [] {
      FilterCount(s[1..], keep, x);
      assert s == [s[0]] + s[1..];
    }
  }

  /** The filter keeps every element the predicate accepts, as often as it occurs, and no other. */
  lemma FilterCountAll<T>(s: seq<T>, keep: T -> bool)
    ensures forall x :: multiset(Filter(s, keep))[x] == if keep(x) then multiset(s)[x] else 0
  {
    forall x ensures multiset(Filter(s, keep))[x] == if keep(x) then multiset(s)[x] else 0 {
      FilterCount(s, keep, x);
    }
  }

  /** A filter drops nothing exactly when every element is kept. */
  lemma {:induction false} FilterKeepsAll<T>(s: seq<T>, keep: T -> bool)
    ensures |Filter(s, keep)| == |s| <==> forall i :: 0 <= i < |s| ==> keep(s[i])
  {
    if s != [] {
      FilterKeepsAll(s[1..], keep);
      assert forall i :: 1 <= i < |s| ==> s[i] == s[1..][i - 1];
    }
  }

  /** A filter that keeps every element is the identity. */
  lemma {:induction false} FilterAll<T>(s: seq<T>, keep: T -> bool)
    requires forall i :: 0 <= i < |s| ==> keep(s[i])
    ensures Filter(s, keep) == s
  {
    if s != [] {
      assert forall i :: 1 <= i < |s| ==> s[1..][i - 1] == s[i];
      FilterAll(s[1..], keep);
    }
  }

  lemma {:induction false} FilterConcat<T>(a: seq<T>, b: seq<T>, keep: T -> bool)
    ensures Filter(a + b, keep) == Filter(a, keep) + Filter(b, keep)
  {
    if a != [] {
      FilterConcat(a[1..], b, keep);
      assert (a + b)[1..] == a[1..] + b;
    } else {
      assert a + b == b;
    }
  }

  /** `set(key(x) for x in s)`. */
  function KeySet<T, K>(s: seq<T>, key: T -> K): set<K>
  {
    set i | 0 <= i < |s| :: key(s[i])
  }

  lemma KeySetAppend<T, K>(s: seq<T>, x: T, key: T -> K)
    ensures KeySet(s + [x], key) == KeySet(s, key) + {key(x)}
  {
    var l, r := KeySet(s + [x], key), KeySet(s, key) + {key(x)};
    forall k | k in l ensures k in r {
      var i :| 0 <= i < |s| + 1 && key((s + [x])[i]) == k;
      if i < |s| {
        assert (s + [x])[i] == s[i];
      }
    }
    forall k | k in r ensures k in l {
      if k != key(x) {
        var i :| 0 <= i < |s| && key(s[i]) == k;
        assert (s + [x])[i] == s[i];
      } else {
        assert (s + [x])[|s|] == x;
      }
    }
  }

  lemma KeySetCons<T, K>(x: T, s: seq<T>, key: T -> K)
    ensures KeySet([x] + s, key) == {key(x)} + KeySet(s, key)
  {
    var l, r := KeySet([x] + s, key), {key(x)} + KeySet(s, key);
    forall k | k in l ensures k in r {
      var i :| 0 <= i < |s| + 1 && key(([x] + s)[i]) == k;
      if i > 0 {
        assert ([x] + s)[i] == s[i - 1];
      }
    }
    forall k | k in r ensures k in l {
      if k != key(x) {
        var i :| 0 <= i < |s| && key(s[i]) == k;
        assert ([x] + s)[i + 1] == s[i];
      } else {
        assert ([x] + s)[0] == x;
      }
    }
  }

  /** No two elements of `s` share a key. */
  predicate UniqueBy<T, K(==)>(s: seq<T>, key: T -> K)
  {
    forall i, j :: 0 <= i < j < |s| ==> key(s[i]) != key(s[j])
  }

  lemma UniqueByCons<T, K>(x: T, s: seq<T>, key: T -> K)
    ensures UniqueBy([x] + s, key) <==> UniqueBy(s, key) && key(x) !in KeySet(s, key)
  {
    var xs := [x] + s;
    assert forall i :: 0 <= i < |s| ==> xs[i + 1] == s[i];
    if UniqueBy(xs, key) {
      forall i, j | 0 <= i < j < |s| ensures key(s[i]) != key(s[j]) {
        assert key(xs[i + 1]) != key(xs[j + 1]);
      }
      forall i | 0 <= i < |s| ensures key(s[i]) != key(x) {
        assert key(xs[0]) != key(xs[i + 1]);
      }
    }
    if UniqueBy(s, key) && key(x) !in KeySet(s, key) {
      forall i, j | 0 <= i < j < |xs| ensures key(xs[i]) != key(xs[j]) {
        if i == 0 {
          assert key(xs[j]) in KeySet(s, key);
        }
      }
    }
  }

  /** A filter keeps only keys that were there, and keeps keys unique. */
  lemma {:induction false} FilterUniqueBy<T, K>(s: seq<T>, keep: T -> bool, key: T -> K)
    ensures KeySet(Filter(s, keep), key) <= KeySet(s, key)
    ensures UniqueBy(s, key) ==> UniqueBy(Filter(s, keep), key)
  {
    if s != [] {
      var rest := s[1..];
      assert s == [s[0]] + rest;
      FilterUniqueBy(rest, keep, key);
      KeySetCons(s[0], rest, key);
      UniqueByCons(s[0], rest, key);
      if keep(s[0]) {
        KeySetCons(s[0], Filter(rest, keep), key);
        UniqueByCons(s[0], Filter(rest, keep), key);
      } else {
        assert Filter(s, keep) == Filter(rest, keep);
      }
    }
  }

  /**
   * The loop `for x in s: if key(x) not in seen: seen.add(key(x));
   * unique.append(x)`, written as a function of the input: it keeps the first
   * element for each key.
   */
  function DedupBy<T(==), K(==)>(s: seq<T>, key: T -> K): (r: seq<T>)
    ensures |r| <= |s|
    ensures forall x :: x in r ==> x in s
    ensures KeySet(r, key) == KeySet(s, key)
    ensures UniqueBy(r, key)
  {
    if s == [] then []
    else
      var init, last := s[..|s| - 1], s[|s| - 1];
      var kept := DedupBy(init, key);
      assert s == init + [last];
      KeySetAppend(init, last, key);
      KeySetAppend(kept, last, key);
      if key(last) in KeySet(init, key) then kept
      else
        assert forall i :: 0 <= i < |kept| ==> key(kept[i]) in KeySet(kept, key);
        kept + [last]
  }

  /** `mask[i]` holds when `s[i]` is the first element with its key. */
  function FirstMask<T, K(==)>(s: seq<T>, key: T -> K): (mask: seq<bool>)
    ensures |mask| == |s|
  {
    seq(|s|, i requires 0 <= i < |s| => key(s[i]) !in KeySet(s[..i], key))
  }

  /** The elements of `s` whose mask bit is set, in order. */
  function Select<T>(s: seq<T>, mask: seq<bool>): (r: seq<T>)
    requires |mask| == |s|
    ensures |r| <= |s|
  {
    if s == [] then []
    else Select(s[..|s| - 1], mask[..|s| - 1]) + (if mask[|s| - 1] then [s[|s| - 1]] else [])
  }

  /** De-duplication keeps exactly the first occurrence of every key, in input order. */
  lemma {:induction false} DedupKeepsFirsts<T, K>(s: seq<T>, key: T -> K)
    ensures DedupBy(s, key) == Select(s, FirstMask(s, key))
  {
    if s != [] {
      var init := s[..|s| - 1];
      DedupKeepsFirsts(init, key);
      forall i | 0 <= i < |init|
        ensures FirstMask(s, key)[i] == FirstMask(init, key)[i]
      {
        assert s[..i] == init[..i];
      }
      assert FirstMask(s, key)[..|s| - 1] == FirstMask(init, key);
      assert s[..|s| - 1] == init;
    }
  }

  function Id<T>(x: T): T { x }

  /** `[...new Set(s)]`: the distinct values of `s` in first-occurrence order. */
  function Distinct<T(==)>(s: seq<T>): seq<T>
  {
    DedupBy(s, Id)
  }

  predicate Unique<T(==)>(s: seq<T>)
  {
    forall i, j :: 0 <= i < j < |s| ==> s[i] != s[j]
  }

  lemma DistinctSpec<T>(s: seq<T>)
    ensures Unique(Distinct(s))
    ensures forall x :: x in Distinct(s) <==> x in s
  {
    var r := Distinct(s);
    assert UniqueBy(r, Id);
    assert KeySet(r, Id) == KeySet(s, Id);
    forall x | x in s ensures x in r {
      var i :| 0 <= i < |s| && s[i] == x;
      assert Id(s[i]) in KeySet(s, Id);
      var j :| 0 <= j < |r| && Id(r[j]) == x;
    }
  }

  /** Distinct values of `s + [x]`: unchanged when `x` already occurred, else `x` is appended. */
  lemma DistinctAppend<T>(s: seq<T>, x: T)
    ensures Distinct(s + [x]) == if x in s then Distinct(s) else Distinct(s) + [x]
  {
    assert (s + [x])[..|s|] == s;
    assert x in s <==> Id(x) in KeySet(s, Id) by {
      if x in s {
        var i :| 0 <= i < |s| && s[i] == x;
        assert Id(s[i]) in KeySet(s, Id);
      }
    }
  }

  /** The counter dict `{k: number of occurrences of k in keys}`. */
  function CountMap<K(==,!new)>(keys: seq<K>): (m: map<K, nat>)
    ensures forall k :: k in m <==> k in keys
  {
    map k | k in keys :: multiset(keys)[k]
  }

  /** One more `counts[k] = counts.get(k, 0) + 1` step. */
  lemma CountMapAppend<K(!new)>(keys: seq<K>, x: K)
    ensures CountMap(keys + [x]) == CountMap(keys)[x := multiset(keys)[x] + 1]
  {
    var l, r := CountMap(keys + [x]), CountMap(keys)[x := multiset(keys)[x] + 1];
    assert multiset(keys + [x]) == multiset(keys) + multiset{x};
    assert l.Keys == r.Keys;
    forall k | k in l ensures l[k] == r[k] {}
  }

  /** `counter[key] = counter.get(key, 0) + 1`. */
  function Bump<K>(counter: map<K, nat>, key: K): map<K, nat>
  {
    counter[key := (if key in counter then counter[key] else 0) + 1]
  }

  /** One counting step keeps a counter equal to the counts of the keys seen so far. */
  lemma BumpCounts<K(!new)>(keys: seq<K>, key: K)
    ensures Bump(CountMap(keys), key) == CountMap(keys + [key])
  {
    CountMapAppend(keys, key);
    if key !in CountMap(keys) {
      assert multiset(keys)[key] == 0;
    }
  }

  /** `sum(m[k] for k in ks)`. */
  function SumValues<K>(ks: seq<K>, m: map<K, nat>): int
    requires forall k :: k in ks ==> k in m
  {
    if ks == [] then 0 else SumValues(ks[..|ks| - 1], m) + m[ks[|ks| - 1]]
  }

  lemma {:induction false} SumValuesFrame<K>(ks: seq<K>, m: map<K, nat>, x: K, v: nat)
    requires forall k :: k in ks ==> k in m
    requires x !in ks
    ensures SumValues(ks, m[x := v]) == SumValues(ks, m)
  {
    if ks != [] {
      SumValuesFrame(ks[..|ks| - 1], m, x, v);
    }
  }

  lemma {:induction false} SumValuesBump<K>(ks: seq<K>, m: map<K, nat>, x: K)
    requires forall k :: k in ks ==> k in m
    requires Unique(ks) && x in ks
    ensures SumValues(ks, m[x := m[x] + 1]) == SumValues(ks, m) + 1
  {
    var init, last := ks[..|ks| - 1], ks[|ks| - 1];
    if last == x {
      assert x !in init;
      SumValuesFrame(init, m, x, m[x] + 1);
    } else {
      assert x in init;
      SumValuesBump(init, m, x);
    }
  }

  /** Every element is counted once: the counts over the distinct keys add up to the length. */
  lemma {:induction false} CountsSumToLength<K(!new)>(keys: seq<K>)
    ensures forall k :: k in Distinct(keys) ==> k in CountMap(keys)
    ensures SumValues(Distinct(keys), CountMap(keys)) == |keys|
  {
    DistinctSpec(keys);
    if keys != [] {
      var t, x := keys[..|keys| - 1], keys[|keys| - 1];
      assert keys == t + [x];
      CountsSumToLength(t);
      DistinctSpec(t);
      DistinctAppend(t, x);
      CountMapAppend(t, x);
      var m := CountMap(t);
      if x in t {
        SumValuesBump(Distinct(t), m, x);
      } else {
        SumValuesFrame(Distinct(t), m, x, 1);
        assert Distinct(keys)[..|Distinct(keys)| - 1] == Distinct(t);
      }
    }
  }

  /** `for x in s: out.extend(f(x))`: the concatenation of `f` over `s`, in order. */
  function FlatMap<T, U>(s: seq<T>, f: T -> seq<U>): seq<U>
  {
    if s == [] then [] else FlatMap(s[..|s| - 1], f) + f(s[|s| - 1])
  }

  lemma {:induction false} FlatMapConcat<T, U>(a: seq<T>, b: seq<T>, f: T -> seq<U>)
    ensures FlatMap(a + b, f) == FlatMap(a, f) + FlatMap(b, f)
  {
    if b == [] {
      assert a + b == a;
    } else {
      FlatMapConcat(a, b[..|b| - 1], f);
      assert (a + b)[..|a + b| - 1] == a + b[..|b| - 1];
    }
  }

  /** `sum(f(x) for x in s)`. */
  function SumBy<T>(s: seq<T>, f: T -> int): int
  {
    if s == [] then 0 else SumBy(s[..|s| - 1], f) + f(s[|s| - 1])
  }

  lemma {:induction false} SumByConcat<T>(a: seq<T>, b: seq<T>, f: T -> int)
    ensures SumBy(a + b, f) == SumBy(a, f) + SumBy(b, f)
  {
    if b == [] {
      assert a + b == a;
    } else {
      SumByConcat(a, b[..|b| - 1], f);
      assert (a + b)[..|a + b| - 1] == a + b[..|b| - 1];
    }
  }
}
