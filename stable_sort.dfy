/** Python's `list.sort(key=...)`: a stable sort, ascending by key. A
    `reverse=True` sort keeps equal keys in their original order too, so it
    is the ascending sort on the negated key. Modelled as insertion sort: the
    head goes in front of every element whose key is not smaller. */
module StableSort {

  function Insert<T>(x: T, s: seq<T>, key: T -> real): (r: seq<T>)
    ensures |r| == |s| + 1
  {
    if s == [] || key(x) <= key(s[0]) then [x] + s
    else [s[0]] + Insert(x, s[1..], key)
  }

  function SortBy<T>(s: seq<T>, key: T -> real): (r: seq<T>)
    ensures |r| == |s|
  {
    if s == [] then [] else Insert(s[0], SortBy(s[1..], key), key)
  }

  predicate Sorted<T>(s: seq<T>, key: T -> real)
  {
    forall i, j :: 0 <= i < j < |s| ==> key(s[i]) <= key(s[j])
  }

  /** The elements whose key is `k`, in their order in `s`. */
  function WithKey<T>(s: seq<T>, key: T -> real, k: real): seq<T>
  {
    if s == [] then []
    else (if key(s[0]) == k then [s[0]] else []) + WithKey(s[1..], key, k)
  }

  lemma {:induction false} InsertPermutes<T>(x: T, s: seq<T>, key: T -> real)
    ensures multiset(Insert(x, s, key)) == multiset(s) + multiset{x}
    decreases |s|
  {
    if s != [] && key(x) > key(s[0]) {
      InsertPermutes(x, s[1..], key);
      assert s == [s[0]] + s[1..];
    }
  }

  lemma {:induction false} TailSorted<T>(s: seq<T>, key: T -> real)
    requires s != [] && Sorted(s, key)
    ensures Sorted(s[1..], key)
  {
    var tail := s[1..];
    forall i, j | 0 <= i < j < |tail| ensures key(tail[i]) <= key(tail[j]) {
      assert tail[i] == s[i + 1] && tail[j] == s[j + 1];
    }
  }

  lemma {:induction false} InsertSorted<T>(x: T, s: seq<T>, key: T -> real)
    requires Sorted(s, key)
    ensures Sorted(Insert(x, s, key), key)
    ensures s != [] ==> key(Insert(x, s, key)[0]) == if key(x) <= key(s[0]) then key(x) else key(s[0])
    decreases |s|
  {
    var r := Insert(x, s, key);
    if s != [] && key(x) > key(s[0]) {
      var tail := s[1..];
      TailSorted(s, key);
      InsertSorted(x, tail, key);
      var rest := Insert(x, tail, key);
      assert r == [s[0]] + rest;
      assert key(s[0]) <= key(rest[0]) by {
        if tail != [] {
          assert tail[0] == s[1];
        }
      }
      forall i, j | 0 <= i < j < |r| ensures key(r[i]) <= key(r[j]) {
        assert r[j] == rest[j - 1];
        if i > 0 {
          assert r[i] == rest[i - 1];
        } else if j > 1 {
          assert key(rest[0]) <= key(rest[j - 1]);
        }
      }
    } else {
      assert r == [x] + s;
      forall i, j | 0 <= i < j < |r| ensures key(r[i]) <= key(r[j]) {
        assert r[j] == s[j - 1];
        if i > 0 {
          assert r[i] == s[i - 1];
        } else if j > 1 {
          assert key(s[0]) <= key(s[j - 1]);
        }
      }
    }
  }

  /** The sort keeps its input's elements, each as often. */
  lemma SortByPermutes<T>(s: seq<T>, key: T -> real)
    ensures multiset(SortBy(s, key)) == multiset(s)
  {
    SortBySortedPermutation(s, key);
  }

  /** The sort returns its input's elements in non-decreasing key order. */
  lemma {:induction false} SortBySortedPermutation<T>(s: seq<T>, key: T -> real)
    ensures Sorted(SortBy(s, key), key)
    ensures multiset(SortBy(s, key)) == multiset(s)
    decreases |s|
  {
    if s != [] {
      SortBySortedPermutation(s[1..], key);
      InsertSorted(s[0], SortBy(s[1..], key), key);
      InsertPermutes(s[0], SortBy(s[1..], key), key);
      assert s == [s[0]] + s[1..];
    }
  }

  lemma {:induction false} InsertWithKey<T>(x: T, s: seq<T>, key: T -> real, k: real)
    requires Sorted(s, key)
    ensures WithKey(Insert(x, s, key), key, k) == (if key(x) == k then [x] else []) + WithKey(s, key, k)
    decreases |s|
  {
    if s != [] && key(x) > key(s[0]) {
      var tail := s[1..];
      TailSorted(s, key);
      InsertWithKey(x, tail, key, k);
      assert Insert(x, s, key)[1..] == Insert(x, tail, key);
    } else {
      assert ([x] + s)[1..] == s;
    }
  }

  /** Stability: the elements sharing any one key keep their relative order. */
  lemma {:induction false} SortByStable<T>(s: seq<T>, key: T -> real, k: real)
    ensures WithKey(SortBy(s, key), key, k) == WithKey(s, key, k)
    decreases |s|
  {
    if s != [] {
      SortBySortedPermutation(s[1..], key);
      SortByStable(s[1..], key, k);
      InsertWithKey(s[0], SortBy(s[1..], key), key, k);
    }
  }

  /** No two elements share a projection (a key that must not repeat). */
  predicate DistinctBy<T, U(==)>(s: seq<T>, proj: T -> U)
  {
    forall i, j :: 0 <= i < j < |s| ==> proj(s[i]) != proj(s[j])
  }

  lemma {:induction false} InsertDistinct<T, U>(x: T, s: seq<T>, key: T -> real, proj: T -> U)
    requires DistinctBy(s, proj)
    requires forall k :: 0 <= k < |s| ==> proj(s[k]) != proj(x)
    ensures DistinctBy(Insert(x, s, key), proj)
    decreases |s|
  {
    var r := Insert(x, s, key);
    if s != [] && key(x) > key(s[0]) {
      var tail := s[1..];
      assert forall k :: 0 <= k < |tail| ==> tail[k] == s[k + 1];
      InsertDistinct(x, tail, key, proj);
      var rest := Insert(x, tail, key);
      InsertPermutes(x, tail, key);
      assert r == [s[0]] + rest;
      forall i, j | 0 <= i < j < |r| ensures proj(r[i]) != proj(r[j]) {
        assert r[j] == rest[j - 1];
        if i > 0 {
          assert r[i] == rest[i - 1];
        } else {
          assert rest[j - 1] in multiset(tail) + multiset{x};
          if rest[j - 1] != x {
            assert rest[j - 1] in tail;
            var k :| 0 <= k < |tail| && tail[k] == rest[j - 1];
            assert proj(s[0]) != proj(s[k + 1]);
          }
        }
      }
    } else {
      assert r == [x] + s;
      forall i, j | 0 <= i < j < |r| ensures proj(r[i]) != proj(r[j]) {
        assert r[j] == s[j - 1];
        if i > 0 {
          assert r[i] == s[i - 1];
        }
      }
    }
  }

  /** Sorting never makes two elements share a projection. */
  lemma {:induction false} SortByDistinct<T, U>(s: seq<T>, key: T -> real, proj: T -> U)
    requires DistinctBy(s, proj)
    ensures DistinctBy(SortBy(s, key), proj)
    decreases |s|
  {
    if s != [] {
      var tail := s[1..];
      assert forall k :: 0 <= k < |tail| ==> tail[k] == s[k + 1];
      SortByDistinct(tail, key, proj);
      var sorted := SortBy(tail, key);
      SortBySortedPermutation(tail, key);
      forall k | 0 <= k < |sorted| ensures proj(sorted[k]) != proj(s[0]) {
        assert sorted[k] in multiset(tail);
        var m :| 0 <= m < |tail| && tail[m] == sorted[k];
        assert proj(s[0]) != proj(s[m + 1]);
      }
      InsertDistinct(s[0], sorted, key, proj);
    }
  }
}
