/** `Array.prototype.filter` and the order-preserving subsequence relation
    it establishes. */
module Sequences {

  /** `s.filter(p)`: the elements of `s` that satisfy `p`, in their order. */
  function Select<T>(s: seq<T>, p: T -> bool): (r: seq<T>)
    ensures |r| <= |s|
    decreases |s|
  {
    if |s| == 0 then [] else (if p(s[0]) then [s[0]] else []) + Select(s[1..], p)
  }

  /** `a` is obtained from `b` by deleting elements, keeping the order. */
  predicate IsSubsequence<T(==)>(a: seq<T>, b: seq<T>)
    decreases |b|
  {
    if a == [] then true
    else if b == [] then false
    else if a[0] == b[0] then IsSubsequence(a[1..], b[1..])
    else IsSubsequence(a, b[1..])
  }

  lemma {:induction false} SubsequenceReflexive<T>(s: seq<T>)
    ensures IsSubsequence(s, s)
    decreases |s|
  {
    if s != [] {
      SubsequenceReflexive(s[1..]);
    }
  }

  lemma {:induction false} SubsequenceLength<T>(a: seq<T>, b: seq<T>)
    requires IsSubsequence(a, b)
    ensures |a| <= |b|
    decreases |b|
  {
    if a != [] {
      if a[0] == b[0] {
        SubsequenceLength(a[1..], b[1..]);
      } else {
        SubsequenceLength(a, b[1..]);
      }
    }
  }

  /** Deleting the first element keeps a subsequence a subsequence. */
  lemma {:induction false} SubsequenceDropHead<T>(a: seq<T>, b: seq<T>)
    requires a != [] && IsSubsequence(a, b)
    ensures IsSubsequence(a[1..], b)
    decreases |b|, 1
  {
    if a[0] == b[0] {
      SubsequenceOfTail(a[1..], b);
    } else {
      SubsequenceDropHead(a, b[1..]);
      SubsequenceOfTail(a[1..], b);
    }
  }

  /** A subsequence of the tail of `b` is a subsequence of `b`. */
  lemma {:induction false} SubsequenceOfTail<T>(a: seq<T>, b: seq<T>)
    requires b != [] && IsSubsequence(a, b[1..])
    ensures IsSubsequence(a, b)
    decreases |b|, 0
  {
    if a != [] && a[0] == b[0] {
      SubsequenceDropHead(a, b[1..]);
    }
  }

  /** Prepending the same element on both sides keeps the relation. */
  lemma SubsequenceCons<T>(x: T, a: seq<T>, b: seq<T>)
    requires IsSubsequence(a, b)
    ensures IsSubsequence([x] + a, [x] + b)
  {
    assert ([x] + a)[1..] == a && ([x] + b)[1..] == b;
  }

  /** Filtering keeps exactly the elements that satisfy the predicate. */
  lemma {:induction false} SelectMembership<T>(s: seq<T>, p: T -> bool, x: T)
    ensures x in Select(s, p) <==> x in s && p(x)
    decreases |s|
  {
    if |s| > 0 {
      SelectMembership(s[1..], p, x);
      assert s == [s[0]] + s[1..];
    }
  }

  /** Filtering deletes elements and never reorders the ones it keeps. */
  lemma {:induction false} SelectIsSubsequence<T>(s: seq<T>, p: T -> bool)
    ensures IsSubsequence(Select(s, p), s)
    decreases |s|
  {
    if |s| > 0 {
      SelectIsSubsequence(s[1..], p);
      if p(s[0]) {
        SubsequenceCons(s[0], Select(s[1..], p), s[1..]);
        assert [s[0]] + s[1..] == s;
      } else {
        assert Select(s, p) == Select(s[1..], p);
        SubsequenceOfTail(Select(s[1..], p), s);
      }
    }
  }

  /** A predicate every element satisfies filters nothing out. */
  lemma {:induction false} SelectKeepsAll<T>(s: seq<T>, p: T -> bool)
    requires forall i :: 0 <= i < |s| ==> p(s[i])
    ensures Select(s, p) == s
    decreases |s|
  {
    if |s| > 0 {
      SelectKeepsAll(s[1..], p);
      assert [s[0]] + s[1..] == s;
    }
  }

  /** Two predicates that agree on the elements of `s` filter it alike. */
  lemma {:induction false} SelectAgree<T>(s: seq<T>, p: T -> bool, q: T -> bool)
    requires forall i :: 0 <= i < |s| ==> p(s[i]) == q(s[i])
    ensures Select(s, p) == Select(s, q)
    decreases |s|
  {
    if |s| > 0 {
      SelectAgree(s[1..], p, q);
    }
  }

  /** Two filters in a row are one filter by the conjunction. */
  lemma {:induction false} SelectTwice<T>(s: seq<T>, p: T -> bool, q: T -> bool, both: T -> bool)
    requires forall i :: 0 <= i < |s| ==> both(s[i]) == (p(s[i]) && q(s[i]))
    ensures Select(Select(s, p), q) == Select(s, both)
    decreases |s|
  {
    if |s| > 0 {
      SelectTwice(s[1..], p, q, both);
      var rest := Select(s[1..], p);
      if p(s[0]) {
        assert Select(s, p) == [s[0]] + rest;
        assert ([s[0]] + rest)[0] == s[0] && ([s[0]] + rest)[1..] == rest;
        assert Select([s[0]] + rest, q) == (if q(s[0]) then [s[0]] else []) + Select(rest, q);
      } else {
        assert Select(s, p) == rest;
      }
    }
  }

  /** A weaker predicate keeps a superset of the elements, in the same
      order. */
  lemma {:induction false} SelectMonotone<T>(s: seq<T>, p: T -> bool, q: T -> bool)
    requires forall i :: 0 <= i < |s| ==> p(s[i]) ==> q(s[i])
    ensures IsSubsequence(Select(s, p), Select(s, q))
    decreases |s|
  {
    if |s| > 0 {
      SelectMonotone(s[1..], p, q);
      var a, b := Select(s[1..], p), Select(s[1..], q);
      if p(s[0]) {
        SubsequenceCons(s[0], a, b);
      } else if q(s[0]) {
        assert Select(s, p) == a && Select(s, q) == [s[0]] + b;
        assert ([s[0]] + b)[1..] == b;
        SubsequenceOfTail(a, [s[0]] + b);
      } else {
        assert Select(s, p) == a && Select(s, q) == b;
      }
    }
  }

  /** Filtering a list extended by one element extends the filtered list by
      that element when it passes. */
  lemma {:induction false} SelectAppend<T>(s: seq<T>, x: T, p: T -> bool)
    ensures Select(s + [x], p) == Select(s, p) + (if p(x) then [x] else [])
    decreases |s|
  {
    if |s| == 0 {
      assert s + [x] == [x];
      assert [x][1..] == [];
    } else {
      SelectAppend(s[1..], x, p);
      assert (s + [x])[0] == s[0];
      assert (s + [x])[1..] == s[1..] + [x];
      var head := if p(s[0]) then [s[0]] else [];
      var tail := if p(x) then [x] else [];
      calc {
        Select(s + [x], p);
        head + Select(s[1..] + [x], p);
        head + (Select(s[1..], p) + tail);
        (head + Select(s[1..], p)) + tail;
        Select(s, p) + tail;
      }
    }
  }

  /** Extending both lists by the same element, or only the longer one, keeps
      a subsequence. */
  lemma {:induction false} SubsequenceAppend<T>(a: seq<T>, b: seq<T>, x: T, both: bool)
    requires IsSubsequence(a, b)
    ensures IsSubsequence(a + (if both then [x] else []), b + [x])
    decreases |b|
  {
    if a == [] {
      if both {
        assert a + [x] == [x];
        SubsequenceTail([x], b);
      }
    } else if a[0] == b[0] {
      SubsequenceAppend(a[1..], b[1..], x, both);
      assert (a + (if both then [x] else []))[1..] == a[1..] + (if both then [x] else []);
      assert (b + [x])[1..] == b[1..] + [x];
    } else {
      SubsequenceAppend(a, b[1..], x, both);
      assert (b + [x])[1..] == b[1..] + [x];
    }
  }

  /** A list is a subsequence of any list it ends. */
  lemma {:induction false} SubsequenceTail<T>(a: seq<T>, b: seq<T>)
    ensures IsSubsequence(a, b + a)
    decreases |b|
  {
    if b == [] {
      assert b + a == a;
      SubsequenceReflexive(a);
    } else {
      SubsequenceTail(a, b[1..]);
      assert (b + a)[1..] == b[1..] + a;
      SubsequenceOfTail(a, b + a);
    }
  }
}
