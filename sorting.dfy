/** Python's `sorted(xs, key=..., reverse=True)` and `xs[:n]`.

    Python's sort is stable, also with `reverse=True`: elements with equal keys
    keep their input order. SortDesc is an insertion sort with exactly that
    behaviour; its contract says it is a permutation, non-increasing in the key,
    and that the elements of any one key appear in input order. */
module Sorting {

  /** `s[:n]`, where a negative `n` counts from the end as Python's slices do. */
  function PyTake<T>(s: seq<T>, n: int): (r: seq<T>)
    ensures n >= 0 ==> |r| == if n < |s| then n else |s|
    ensures n < 0 ==> |r| == if |s| + n > 0 then |s| + n else 0
    ensures r == s[..|r|]
  {
    if n >= 0 then (if n < |s| then s[..n] else s)
    else if |s| + n > 0 then s[..|s| + n] else []
  }

  /** `key` never increases along `s`. */
  predicate SortedDesc<T>(s: seq<T>, key: T -> int) {
    forall i, j :: 0 <= i < j < |s| ==> key(s[i]) >= key(s[j])
  }

  /** The elements of `s` whose key is `k`, in order. */
  function WithKey<T>(s: seq<T>, key: T -> int, k: int): seq<T> {
    if s == [] then [] else (if key(s[0]) == k then [s[0]] else []) + WithKey(s[1..], key, k)
  }

  /** Any two elements of `s` with equal keys, taken in order, are related by `before`. */
  predicate TiesOrdered<T>(s: seq<T>, key: T -> int, before: (T, T) -> bool) {
    forall i, j :: 0 <= i < j < |s| && key(s[i]) == key(s[j]) ==> before(s[i], s[j])
  }

  lemma {:induction false} WithKeyAppend<T>(a: seq<T>, b: seq<T>, key: T -> int, k: int)
    ensures WithKey(a + b, key, k) == WithKey(a, key, k) + WithKey(b, key, k)
  {
    if a != [] {
      assert (a + b)[0] == a[0] && (a + b)[1..] == a[1..] + b;
      WithKeyAppend(a[1..], b, key, k);
    } else {
      assert a + b == b;
    }
  }

  /** Places `x` in front of the first element whose key is not larger. */
  function Insert<T(==)>(x: T, s: seq<T>, key: T -> int): (r: seq<T>)
    ensures |r| == |s| + 1
    ensures multiset(r) == multiset(s) + multiset{x}
  {
    if s == [] || key(s[0]) <= key(x) then [x] + s
    else
      assert s == [s[0]] + s[1..];
      [s[0]] + Insert(x, s[1..], key)
  }

  /** Inserting into a sorted sequence keeps it sorted. */
  lemma {:induction false} InsertSorted<T>(x: T, s: seq<T>, key: T -> int)
    requires SortedDesc(s, key)
    ensures SortedDesc(Insert(x, s, key), key)
  {
    if s == [] || key(s[0]) <= key(x) {
      assert Insert(x, s, key) == [x] + s;
      forall e | e in s ensures key(x) >= key(e) {
        var m :| 0 <= m < |s| && s[m] == e;
      }
      SortedCons(x, s, key);
    } else {
      var t := Insert(x, s[1..], key);
      assert SortedDesc(s[1..], key) by {
        forall i, j | 0 <= i < j < |s[1..]| ensures key(s[1..][i]) >= key(s[1..][j]) {
          assert s[1..][i] == s[i + 1] && s[1..][j] == s[j + 1];
        }
      }
      InsertSorted(x, s[1..], key);
      InsertBelowHead(x, s, key);
      assert Insert(x, s, key) == [s[0]] + t;
      SortedCons(s[0], t, key);
    }
  }

  /** A head no smaller than every element keeps a sorted sequence sorted. */
  lemma SortedCons<T>(h: T, t: seq<T>, key: T -> int)
    requires SortedDesc(t, key)
    requires forall e :: e in t ==> key(h) >= key(e)
    ensures SortedDesc([h] + t, key)
  {
    var r := [h] + t;
    forall i, j | 0 <= i < j < |r| ensures key(r[i]) >= key(r[j]) {
      assert r[j] == t[j - 1];
      if i > 0 {
        assert r[i] == t[i - 1];
      }
    }
  }

  /** Inserting behind the head of a sorted sequence keeps everything at most the head. */
  lemma InsertBelowHead<T>(x: T, s: seq<T>, key: T -> int)
    requires SortedDesc(s, key) && s != [] && key(s[0]) > key(x)
    ensures forall e :: e in Insert(x, s[1..], key) ==> key(s[0]) >= key(e)
  {
    var t := Insert(x, s[1..], key);
    forall e | e in t ensures key(s[0]) >= key(e) {
      assert e in multiset(t);
      if e != x {
        assert e in multiset(s[1..]);
        var m :| 0 <= m < |s[1..]| && s[1..][m] == e;
        assert s[m + 1] == e;
      }
    }
  }

  /** Inserting `x` puts it ahead of every element of `s` that has its key. */
  lemma {:induction false} InsertWithKey<T>(x: T, s: seq<T>, key: T -> int, k: int)
    ensures WithKey(Insert(x, s, key), key, k) == (if key(x) == k then [x] else []) + WithKey(s, key, k)
  {
    if s == [] || key(s[0]) <= key(x) {
      assert Insert(x, s, key) == [x] + s;
      WithKeyCons(x, s, key, k);
    } else {
      InsertWithKey(x, s[1..], key, k);
      InsertWithKeyBehind(x, s, key, k);
    }
  }

  /** The step of InsertWithKey where `x` goes behind the head of `s`. */
  lemma InsertWithKeyBehind<T>(x: T, s: seq<T>, key: T -> int, k: int)
    requires s != [] && key(s[0]) > key(x)
    requires WithKey(Insert(x, s[1..], key), key, k) == (if key(x) == k then [x] else []) + WithKey(s[1..], key, k)
    ensures WithKey(Insert(x, s, key), key, k) == (if key(x) == k then [x] else []) + WithKey(s, key, k)
  {
    var t := Insert(x, s[1..], key);
    var a := if key(s[0]) == k then [s[0]] else [];
    var b := if key(x) == k then [x] else [];
    var c := WithKey(s[1..], key, k);
    assert Insert(x, s, key) == [s[0]] + t;
    WithKeyCons(s[0], t, key, k);
    WithKeyCons(s[0], s[1..], key, k);
    assert [s[0]] + s[1..] == s;
    SwapHeads(a, b, c);
  }

  lemma WithKeyCons<T>(e: T, s: seq<T>, key: T -> int, k: int)
    ensures WithKey([e] + s, key, k) == (if key(e) == k then [e] else []) + WithKey(s, key, k)
  {
    assert ([e] + s)[0] == e && ([e] + s)[1..] == s;
  }

  /** Two prefixes of which at most one is non-empty can be swapped. */
  lemma SwapHeads<T>(a: seq<T>, b: seq<T>, c: seq<T>)
    requires a == [] || b == []
    ensures a + (b + c) == b + (a + c)
  {
    if a == [] {
      assert a + (b + c) == b + c == b + (a + c);
    } else if b == [] {
      assert a + (b + c) == a + c == b + (a + c);
    }
  }

  /** A stable sort by `key`, largest first. */
  function SortDesc<T(==)>(s: seq<T>, key: T -> int): (r: seq<T>)
    ensures |r| == |s|
    ensures multiset(r) == multiset(s)
    ensures SortedDesc(r, key)
  {
    if s == [] then []
    else
      assert s == [s[0]] + s[1..];
      InsertSorted(s[0], SortDesc(s[1..], key), key);
      Insert(s[0], SortDesc(s[1..], key), key)
  }

  /** Stability: the elements with any one key appear in the output exactly as in the input. */
  lemma {:induction false} SortDescStable<T>(s: seq<T>, key: T -> int, k: int)
    ensures WithKey(SortDesc(s, key), key, k) == WithKey(s, key, k)
  {
    if s != [] {
      SortDescStable(s[1..], key, k);
      InsertWithKey(s[0], SortDesc(s[1..], key), key, k);
    }
  }

  lemma {:induction false} InsertTiesOrdered<T>(x: T, s: seq<T>, key: T -> int, before: (T, T) -> bool)
    requires TiesOrdered(s, key, before)
    requires forall e :: e in s && key(e) == key(x) ==> before(x, e)
    ensures TiesOrdered(Insert(x, s, key), key, before)
  {
    var r := Insert(x, s, key);
    if s == [] || key(s[0]) <= key(x) {
      assert r == [x] + s;
      forall i, j | 0 <= i < j < |r| && key(r[i]) == key(r[j]) ensures before(r[i], r[j]) {
        if i == 0 {
          assert r[j] == s[j - 1];
        } else {
          assert r[i] == s[i - 1] && r[j] == s[j - 1];
        }
      }
    } else {
      var t := Insert(x, s[1..], key);
      assert r == [s[0]] + t;
      assert TiesOrdered(s[1..], key, before) by {
        forall i, j | 0 <= i < j < |s[1..]| && key(s[1..][i]) == key(s[1..][j])
          ensures before(s[1..][i], s[1..][j])
        {
          assert s[1..][i] == s[i + 1] && s[1..][j] == s[j + 1];
        }
      }
      InsertTiesOrdered(x, s[1..], key, before);
      forall i, j | 0 <= i < j < |r| && key(r[i]) == key(r[j]) ensures before(r[i], r[j]) {
        if i == 0 {
          var e := r[j];
          assert e == t[j - 1];
          assert e in multiset(t);
          assert e != x;
          assert e in s[1..];
          var m :| 0 <= m < |s[1..]| && s[1..][m] == e;
          assert s[m + 1] == e;
        } else {
          assert r[i] == t[i - 1] && r[j] == t[j - 1];
        }
      }
    }
  }

  /** A relation that orders the input's ties also orders the output's ties. */
  lemma {:induction false} SortDescTiesOrdered<T>(s: seq<T>, key: T -> int, before: (T, T) -> bool)
    requires TiesOrdered(s, key, before)
    ensures TiesOrdered(SortDesc(s, key), key, before)
  {
    if s != [] {
      assert TiesOrdered(s[1..], key, before) by {
        forall i, j | 0 <= i < j < |s[1..]| && key(s[1..][i]) == key(s[1..][j])
          ensures before(s[1..][i], s[1..][j])
        {
          assert s[1..][i] == s[i + 1] && s[1..][j] == s[j + 1];
        }
      }
      SortDescTiesOrdered(s[1..], key, before);
      var t := SortDesc(s[1..], key);
      forall e | e in t && key(e) == key(s[0]) ensures before(s[0], e) {
        assert e in multiset(s[1..]);
        var m :| 0 <= m < |s[1..]| && s[1..][m] == e;
        assert s[m + 1] == e;
      }
      InsertTiesOrdered(s[0], t, key, before);
    }
  }

  /** Every element of `s[..m]` with key `k` comes before the others with key `k`. */
  lemma WithKeyPrefix<T>(s: seq<T>, m: nat, key: T -> int, k: int)
    requires m <= |s|
    ensures WithKey(s, key, k) == WithKey(s[..m], key, k) + WithKey(s[m..], key, k)
  {
    WithKeyAppend(s[..m], s[m..], key, k);
    assert s[..m] + s[m..] == s;
  }

  /** Taking the first `n` of a stable sort keeps, for each key, a prefix of
      the input's elements with that key, in input order. */
  lemma TakeSortedStable<T>(s: seq<T>, key: T -> int, n: int, k: int)
    ensures |WithKey(PyTake(SortDesc(s, key), n), key, k)| <= |WithKey(s, key, k)|
    ensures WithKey(PyTake(SortDesc(s, key), n), key, k) == WithKey(s, key, k)[..|WithKey(PyTake(SortDesc(s, key), n), key, k)|]
  {
    var t := SortDesc(s, key);
    var r := PyTake(t, n);
    SortDescStable(s, key, k);
    WithKeyPrefix(t, |r|, key, k);
    assert t[..|r|] == r;
  }

  /** The first `n` of a descending sort: at most `n` (when `n` is not
      negative) of the input's elements, still in descending order. */
  lemma TakeSortedShape<T>(s: seq<T>, key: T -> int, n: int)
    ensures n >= 0 ==> |PyTake(SortDesc(s, key), n)| <= n
    ensures |PyTake(SortDesc(s, key), n)| <= |s|
    ensures SortedDesc(PyTake(SortDesc(s, key), n), key)
    ensures forall x :: x in PyTake(SortDesc(s, key), n) ==> x in s
  {
    var t := SortDesc(s, key);
    var r := PyTake(t, n);
    assert r == t[..|r|];
    forall x | x in r ensures x in s {
      assert x in multiset(t);
    }
  }

  /** The first `n` of a descending sort are the top `n`: whatever is left
      out has a key no larger than anything kept. */
  lemma TakeSortedTop<T>(s: seq<T>, key: T -> int, n: int)
    ensures forall x, y :: x in s && x !in PyTake(SortDesc(s, key), n) && y in PyTake(SortDesc(s, key), n) ==>
      key(y) >= key(x)
  {
    var t := SortDesc(s, key);
    var r := PyTake(t, n);
    forall x, y | x in s && x !in r && y in r ensures key(y) >= key(x) {
      assert x in multiset(t);
      var p :| 0 <= p < |t| && t[p] == x;
      var q :| 0 <= q < |r| && r[q] == y;
      assert t[q] == y;
    }
  }

  /** `xs` is `ys` with some elements left out. */
  predicate Subsequence<T(==)>(xs: seq<T>, ys: seq<T>) {
    xs == [] ||
    (ys != [] &&
     ((xs[|xs| - 1] == ys[|ys| - 1] && Subsequence(xs[..|xs| - 1], ys[..|ys| - 1]))
      || Subsequence(xs, ys[..|ys| - 1])))
  }

}
