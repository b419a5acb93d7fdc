/** Python's `sum(f(x) for x in xs)` and the counting loop
    `for x in xs: if p(x): n += 1`, with the facts the aggregator needs:
    both only depend on the multiset of elements, not on their order. */
module Folds {

  function SumBy<T>(s: seq<T>, f: T -> real): real
  {
    if s == [] then 0.0 else f(s[0]) + SumBy(s[1..], f)
  }

  function CountBy<T>(s: seq<T>, p: T -> bool): (n: nat)
    ensures n <= |s|
  {
    if s == [] then 0 else (if p(s[0]) then 1 else 0) + CountBy(s[1..], p)
  }

  lemma {:induction false} SumByAppend<T>(a: seq<T>, b: seq<T>, f: T -> real)
    ensures SumBy(a + b, f) == SumBy(a, f) + SumBy(b, f)
    decreases |a|
  {
    if a == [] {
      assert a + b == b;
    } else {
      assert (a + b)[0] == a[0];
      assert (a + b)[1..] == a[1..] + b;
      SumByAppend(a[1..], b, f);
    }
  }

  lemma {:induction false} CountByAppend<T>(a: seq<T>, b: seq<T>, p: T -> bool)
    ensures CountBy(a + b, p) == CountBy(a, p) + CountBy(b, p)
    decreases |a|
  {
    if a == [] {
      assert a + b == b;
    } else {
      assert (a + b)[0] == a[0];
      assert (a + b)[1..] == a[1..] + b;
      CountByAppend(a[1..], b, p);
    }
  }

  /** Reordering the elements does not change their sum. */
  lemma {:induction false} SumByPermutation<T>(a: seq<T>, b: seq<T>, f: T -> real)
    requires multiset(a) == multiset(b)
    ensures SumBy(a, f) == SumBy(b, f)
    decreases |a|
  {
    if a == [] {
      assert |b| == |multiset(b)| == 0;
    } else {
      assert a[0] in multiset(b);
      var p :| 0 <= p < |b| && b[p] == a[0];
      var rest := b[..p] + b[p + 1..];
      assert b == b[..p] + [b[p]] + b[p + 1..];
      assert a == [a[0]] + a[1..];
      assert multiset(rest) == multiset(b[..p]) + multiset(b[p + 1..]);
      assert multiset(b) == multiset(rest) + multiset{a[0]} by {
        assert b == b[..p] + [b[p]] + b[p + 1..];
      }
      assert multiset(a) == multiset{a[0]} + multiset(a[1..]);
      assert multiset(a[1..]) == multiset(a) - multiset{a[0]};
      assert multiset(rest) == multiset(b) - multiset{a[0]};
      SumByPermutation(a[1..], rest, f);
      SumByAppend(b[..p] + [b[p]], b[p + 1..], f);
      SumByAppend(b[..p], [b[p]], f);
      SumByAppend(b[..p], b[p + 1..], f);
    }
  }

  /** Reordering the elements does not change how many satisfy `p`. */
  lemma {:induction false} CountByPermutation<T>(a: seq<T>, b: seq<T>, p: T -> bool)
    requires multiset(a) == multiset(b)
    ensures CountBy(a, p) == CountBy(b, p)
    decreases |a|
  {
    if a == [] {
      assert |b| == |multiset(b)| == 0;
    } else {
      assert a[0] in multiset(b);
      var k :| 0 <= k < |b| && b[k] == a[0];
      var rest := b[..k] + b[k + 1..];
      assert b == b[..k] + [b[k]] + b[k + 1..];
      assert a == [a[0]] + a[1..];
      assert multiset(rest) == multiset(b[..k]) + multiset(b[k + 1..]);
      assert multiset(b) == multiset(rest) + multiset{a[0]} by {
        assert b == b[..k] + [b[k]] + b[k + 1..];
      }
      assert multiset(a) == multiset{a[0]} + multiset(a[1..]);
      assert multiset(a[1..]) == multiset(a) - multiset{a[0]};
      assert multiset(rest) == multiset(b) - multiset{a[0]};
      CountByPermutation(a[1..], rest, p);
      CountByAppend(b[..k] + [b[k]], b[k + 1..], p);
      CountByAppend(b[..k], [b[k]], p);
      CountByAppend(b[..k], b[k + 1..], p);
    }
  }

  /** Every term at most `m` bounds the sum by |s| × m. */
  lemma {:induction false} SumByAtMost<T>(s: seq<T>, f: T -> real, m: real)
    requires forall i :: 0 <= i < |s| ==> f(s[i]) <= m
    ensures SumBy(s, f) <= |s| as real * m
    decreases |s|
  {
    if s != [] {
      assert forall i :: 0 <= i < |s| - 1 ==> s[1..][i] == s[i + 1];
      SumByAtMost(s[1..], f, m);
    }
  }
}
