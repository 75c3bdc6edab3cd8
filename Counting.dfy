/** Occurrence counts and the dictionaries of counts the source builds with
    `stats[k] = (stats[k] || 0) + 1`. */
module Counting {

  /** How many times `x` occurs in `s`. */
  function Count<T(==)>(s: seq<T>, x: T): (n: nat)
    ensures n <= |s|
    decreases |s|
  {
    if s == [] then 0 else Count(s[..|s| - 1], x) + (if s[|s| - 1] == x then 1 else 0)
  }

  /** `stats[k] || 0`: the count stored for `k`, or 0 when `k` has none. */
  function Lookup<K(==)>(m: map<K, nat>, k: K): nat {
    if k in m then m[k] else 0
  }

  /** `stats[k] = (stats[k] || 0) + 1`. */
  function Increment<K(==)>(m: map<K, nat>, k: K): map<K, nat>
  {
    m[k := Lookup(m, k) + 1]
  }

  /** The dictionary that incrementing once per element of `s`, in order,
      builds from `{}`. */
  function Histogram<K(==)>(s: seq<K>): map<K, nat>
    decreases |s|
  {
    if s == [] then map[] else Increment(Histogram(s[..|s| - 1]), s[|s| - 1])
  }

  /** The dictionary holds exactly the keys that occur, each with its number
      of occurrences. */
  lemma {:induction false} HistogramCounts<K>(s: seq<K>, x: K)
    ensures x in Histogram(s) <==> x in s
    ensures Lookup(Histogram(s), x) == Count(s, x)
    decreases |s|
  {
    if s != [] {
      var init := s[..|s| - 1];
      HistogramCounts(init, x);
      assert s == init + [s[|s| - 1]];
    }
  }

  /** Counting one more element is one more increment. */
  lemma HistogramAppend<K>(s: seq<K>, x: K)
    ensures Histogram(s + [x]) == Histogram(s)[x := Lookup(Histogram(s), x) + 1]
  {
    assert (s + [x])[..|s|] == s;
  }

  /** The sum of the values of `m` over the keys `ks`. */
  ghost function SumOver<K>(m: map<K, nat>, ks: set<K>): nat
    requires ks <= m.Keys
    decreases ks
  {
    if ks == {} then 0 else var k :| k in ks; m[k] + SumOver(m, ks - {k})
  }

  /** The sum of all values of `m`. */
  ghost function Total<K>(m: map<K, nat>): nat {
    SumOver(m, m.Keys)
  }

  /** The sum does not depend on which key `SumOver` happens to take first. */
  lemma {:induction false} SumOverRemove<K>(m: map<K, nat>, ks: set<K>, k: K)
    requires ks <= m.Keys && k in ks
    ensures SumOver(m, ks) == m[k] + SumOver(m, ks - {k})
    decreases ks
  {
    var j :| j in ks && SumOver(m, ks) == m[j] + SumOver(m, ks - {j});
    if j != k {
      SumOverRemove(m, ks - {j}, k);
      SumOverRemove(m, ks - {k}, j);
      assert ks - {j} - {k} == ks - {k} - {j};
    }
  }

  /** Maps that agree on `ks` have the same sum over `ks`. */
  lemma {:induction false} SumOverAgree<K>(m: map<K, nat>, n: map<K, nat>, ks: set<K>)
    requires ks <= m.Keys && ks <= n.Keys
    requires forall k :: k in ks ==> m[k] == n[k]
    ensures SumOver(m, ks) == SumOver(n, ks)
    decreases ks
  {
    if ks != {} {
      var k :| k in ks && SumOver(m, ks) == m[k] + SumOver(m, ks - {k});
      SumOverRemove(n, ks, k);
      SumOverAgree(m, n, ks - {k});
    }
  }

  /** Each increment adds one to the sum of the counts. */
  lemma TotalIncrement<K>(m: map<K, nat>, x: K)
    ensures Total(Increment(m, x)) == Total(m) + 1
  {
    var r := Increment(m, x);
    var rest := m.Keys - {x};
    SumOverRemove(r, r.Keys, x);
    assert r.Keys - {x} == rest;
    SumOverAgree(r, m, rest);
    if x in m {
      SumOverRemove(m, m.Keys, x);
    } else {
      assert m.Keys == rest;
    }
  }

  /** The counts of a histogram add up to the length of the counted list. */
  lemma {:induction false} HistogramTotal<K>(s: seq<K>)
    ensures Total(Histogram(s)) == |s|
    decreases |s|
  {
    if s != [] {
      HistogramTotal(s[..|s| - 1]);
      TotalIncrement(Histogram(s[..|s| - 1]), s[|s| - 1]);
    }
  }

  /** Counting over a concatenation adds the counts of the parts. */
  lemma {:induction false} CountConcat<T>(a: seq<T>, b: seq<T>, x: T)
    ensures Count(a + b, x) == Count(a, x) + Count(b, x)
    decreases |b|
  {
    if b == [] {
      assert a + b == a;
    } else {
      CountConcat(a, b[..|b| - 1], x);
      assert (a + b)[..|a + b| - 1] == a + b[..|b| - 1];
    }
  }

  /** An element that occurs is counted at least once. */
  lemma {:induction false} CountPositive<T>(s: seq<T>, x: T)
    ensures x in s <==> Count(s, x) > 0
    decreases |s|
  {
    if s != [] {
      CountPositive(s[..|s| - 1], x);
      assert s == s[..|s| - 1] + [s[|s| - 1]];
    }
  }

  /** No element repeats in `s`. */
  predicate Distinct<T(==)>(s: seq<T>) {
    forall i, j :: 0 <= i < j < |s| ==> s[i] != s[j]
  }

  /** In a list without repetitions every element is counted once. */
  lemma {:induction false} CountDistinct<T>(s: seq<T>, x: T)
    requires Distinct(s)
    ensures Count(s, x) == if x in s then 1 else 0
    decreases |s|
  {
    if s != [] {
      var init := s[..|s| - 1];
      assert Distinct(init);
      CountDistinct(init, x);
      assert s == init + [s[|s| - 1]];
      if s[|s| - 1] == x {
        assert x !in init;
      }
    }
  }

  /** A map that holds the values of `h` on its keys and 0 elsewhere sums,
      over any `ks`, to the sum of `h` over the keys of `h` in `ks`. */
  lemma {:induction false} SumOverZeroElsewhere<K>(m: map<K, nat>, h: map<K, nat>, ks: set<K>)
    requires ks <= m.Keys
    requires forall k :: k in ks ==> m[k] == Lookup(h, k)
    ensures SumOver(m, ks) == SumOver(h, ks * h.Keys)
    decreases ks
  {
    if ks != {} {
      var k :| k in ks && SumOver(m, ks) == m[k] + SumOver(m, ks - {k});
      SumOverZeroElsewhere(m, h, ks - {k});
      if k in h {
        SumOverRemove(h, ks * h.Keys, k);
        assert (ks - {k}) * h.Keys == ks * h.Keys - {k};
      } else {
        assert (ks - {k}) * h.Keys == ks * h.Keys;
      }
    }
  }
}
