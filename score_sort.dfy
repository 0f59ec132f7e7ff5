/** `sorted(xs, key=..., reverse=True)`: a stable sort into non-increasing key
    order. A stable sort's output is determined by its input and key, so an
    insertion sort stands in for the library's algorithm. */
module ScoreSort {

  predicate SortedDesc<T>(s: seq<T>, key: T -> real) {
    forall i, j :: 0 <= i < j < |s| ==> key(s[i]) >= key(s[j])
  }

  /** Puts `x` in front of the first element whose key is not greater than its
      own, so that `x` stays ahead of the equal keys that came after it. */
  function Insert<T>(x: T, s: seq<T>, key: T -> real): seq<T>
    decreases |s|
  {
    if s == [] || key(s[0]) <= key(x) then [x] + s
    else [s[0]] + Insert(x, s[1..], key)
  }

  function Sort<T>(s: seq<T>, key: T -> real): seq<T>
    decreases |s|
  {
    if s == [] then [] else Insert(s[0], Sort(s[1..], key), key)
  }

  /** The elements with key `v`, in order. */
  function WithKey<T>(s: seq<T>, key: T -> real, v: real): seq<T>
    decreases |s|
  {
    if s == [] then [] else (if key(s[0]) == v then [s[0]] else []) + WithKey(s[1..], key, v)
  }

  lemma {:induction false} InsertPermutation<T>(x: T, s: seq<T>, key: T -> real)
    ensures multiset(Insert(x, s, key)) == multiset(s) + multiset{x}
    decreases |s|
  {
    if s != [] && key(s[0]) > key(x) {
      InsertPermutation(x, s[1..], key);
      assert s == [s[0]] + s[1..];
    }
  }

  lemma {:induction false} InsertSorted<T>(x: T, s: seq<T>, key: T -> real)
    requires SortedDesc(s, key)
    ensures SortedDesc(Insert(x, s, key), key)
    decreases |s|
  {
    if s != [] && key(s[0]) > key(x) {
      var rest := Insert(x, s[1..], key);
      InsertSorted(x, s[1..], key);
      InsertPermutation(x, s[1..], key);
      forall k | 0 <= k < |rest|
        ensures key(s[0]) >= key(rest[k])
      {
        assert rest[k] in multiset(rest);
        if rest[k] != x {
          assert rest[k] in multiset(s[1..]);
          var j :| 0 <= j < |s[1..]| && s[1..][j] == rest[k];
          assert s[j + 1] == rest[k];
        }
      }
      var r := [s[0]] + rest;
      forall i, j | 0 <= i < j < |r|
        ensures key(r[i]) >= key(r[j])
      {
        if i > 0 {
          assert r[i] == rest[i - 1] && r[j] == rest[j - 1];
        } else {
          assert r[j] == rest[j - 1];
        }
      }
    }
  }

  /** The result is in non-increasing key order. */
  lemma {:induction false} SortSorted<T>(s: seq<T>, key: T -> real)
    ensures SortedDesc(Sort(s, key), key)
    decreases |s|
  {
    if s != [] {
      SortSorted(s[1..], key);
      InsertSorted(s[0], Sort(s[1..], key), key);
    }
  }

  /** The result is a permutation of the input. */
  lemma {:induction false} SortPermutation<T>(s: seq<T>, key: T -> real)
    ensures multiset(Sort(s, key)) == multiset(s)
    ensures |Sort(s, key)| == |s|
    decreases |s|
  {
    if s != [] {
      SortPermutation(s[1..], key);
      InsertPermutation(s[0], Sort(s[1..], key), key);
      assert s == [s[0]] + s[1..];
    }
    assert |multiset(Sort(s, key))| == |Sort(s, key)|;
  }

  lemma {:induction false} InsertWithKey<T>(x: T, s: seq<T>, key: T -> real, v: real)
    ensures WithKey(Insert(x, s, key), key, v) == (if key(x) == v then [x] else []) + WithKey(s, key, v)
    decreases |s|
  {
    if s == [] || key(s[0]) <= key(x) {
      assert ([x] + s)[1..] == s;
    } else {
      var rest := Insert(x, s[1..], key);
      InsertWithKey(x, s[1..], key, v);
      assert ([s[0]] + rest)[1..] == rest;
      assert WithKey(Insert(x, s, key), key, v) == (if key(s[0]) == v then [s[0]] else []) + WithKey(rest, key, v);
      assert WithKey(s, key, v) == (if key(s[0]) == v then [s[0]] else []) + WithKey(s[1..], key, v);
      if key(x) == v {
        assert key(s[0]) != v;
      }
    }
  }

  /** Stability: elements with equal keys keep their input order. */
  lemma {:induction false} SortStable<T>(s: seq<T>, key: T -> real, v: real)
    ensures WithKey(Sort(s, key), key, v) == WithKey(s, key, v)
    decreases |s|
  {
    if s != [] {
      SortStable(s[1..], key, v);
      InsertWithKey(s[0], Sort(s[1..], key), key, v);
    }
  }

  lemma {:induction false} WithKeyConcat<T>(a: seq<T>, b: seq<T>, key: T -> real, v: real)
    ensures WithKey(a + b, key, v) == WithKey(a, key, v) + WithKey(b, key, v)
    decreases |a|
  {
    if a == [] {
      assert a + b == b;
    } else {
      var ab := a + b;
      assert ab[0] == a[0];
      assert ab[1..] == a[1..] + b;
      WithKeyConcat(a[1..], b, key, v);
      var head := if key(a[0]) == v then [a[0]] else [];
      assert WithKey(ab, key, v) == head + WithKey(a[1..] + b, key, v);
      assert WithKey(a, key, v) == head + WithKey(a[1..], key, v);
    }
  }
}
