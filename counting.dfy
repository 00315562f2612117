/** Frequency counting as the pipeline does it with a dict (`d[k] = d.get(k, 0) + 1`)
    or with `collections.Counter`: an insertion-ordered table of counts, and
    `Counter.most_common(n)`, which lists the entries by decreasing count with
    ties in first-encountered order. */
module Counting {
  import opened Sorting

  /** A dict from strings to counts, in insertion order. */
  type Counts = seq<(string, nat)>

  function Keys(t: Counts): (ks: seq<string>)
    ensures |ks| == |t|
    ensures forall i :: 0 <= i < |t| ==> ks[i] == t[i].0
  {
    seq(|t|, i requires 0 <= i < |t| => t[i].0)
  }

  /** The sum of the counts. */
  function Total(t: Counts): nat {
    if t == [] then 0 else t[0].1 + Total(t[1..])
  }

  predicate Distinct(ks: seq<string>) {
    forall i, j :: 0 <= i < j < |ks| ==> ks[i] != ks[j]
  }

  /** How often `k` occurs in `xs`. */
  function Occ(xs: seq<string>, k: string): nat {
    multiset(xs)[k]
  }

  /** The index of the first occurrence of `k` in `xs`. */
  function FirstIndex(xs: seq<string>, k: string): (r: nat)
    requires k in xs
    ensures r < |xs| && xs[r] == k && k !in xs[..r]
  {
    if xs[0] == k then 0
    else
      var r := 1 + FirstIndex(xs[1..], k);
      assert xs[..r] == [xs[0]] + xs[1..][..r - 1];
      r
  }

  lemma FirstIndexUnique(xs: seq<string>, k: string, r: nat)
    requires r < |xs| && xs[r] == k && k !in xs[..r]
    ensures FirstIndex(xs, k) == r
  {
    var f := FirstIndex(xs, k);
    assert forall i :: 0 <= i < r ==> xs[..r][i] == xs[i];
    assert forall i :: 0 <= i < f ==> xs[..f][i] == xs[i];
  }

  lemma FirstIndexSnoc(xs: seq<string>, y: string, k: string)
    requires k in xs
    ensures FirstIndex(xs + [y], k) == FirstIndex(xs, k)
  {
    var f := FirstIndex(xs, k);
    assert (xs + [y])[..f] == xs[..f];
    FirstIndexUnique(xs + [y], k, f);
  }

  /** `d[x] = d.get(x, 0) + 1` */
  function Bump(t: Counts, x: string): Counts {
    if t == [] then [(x, 1)]
    else if t[0].0 == x then [(x, t[0].1 + 1)] + t[1..]
    else [t[0]] + Bump(t[1..], x)
  }

  lemma {:induction false} BumpTotal(t: Counts, x: string)
    ensures Total(Bump(t, x)) == Total(t) + 1
  {
    if t != [] && t[0].0 != x {
      BumpTotal(t[1..], x);
      assert Total(Bump(t, x)) == t[0].1 + Total(Bump(t[1..], x));
    }
  }

  /** A new key is appended with count 1. */
  lemma {:induction false} BumpNew(t: Counts, x: string)
    requires x !in Keys(t)
    ensures Bump(t, x) == t + [(x, 1)]
  {
    if t != [] {
      assert Keys(t)[0] == t[0].0;
      assert x !in Keys(t[1..]) by {
        forall i | 0 <= i < |t[1..]| ensures Keys(t[1..])[i] != x {
          assert Keys(t)[i + 1] == Keys(t[1..])[i];
        }
      }
      BumpNew(t[1..], x);
      assert [t[0]] + (t[1..] + [(x, 1)]) == t + [(x, 1)];
    }
  }

  /** An existing key has its entry incremented in place. */
  lemma {:induction false} BumpOld(t: Counts, x: string)
    requires Distinct(Keys(t)) && x in Keys(t)
    ensures |Bump(t, x)| == |t|
    ensures forall i :: 0 <= i < |t| ==> Bump(t, x)[i] == if t[i].0 == x then (x, t[i].1 + 1) else t[i]
  {
    assert Keys(t)[0] == t[0].0;
    var b := Bump(t, x);
    if t[0].0 != x {
      assert Distinct(Keys(t[1..])) && x in Keys(t[1..]) by {
        forall i | 0 <= i < |t[1..]| ensures Keys(t[1..])[i] == Keys(t)[i + 1] {
        }
      }
      BumpOld(t[1..], x);
      forall i | 0 < i < |t| ensures b[i] == if t[i].0 == x then (x, t[i].1 + 1) else t[i] {
        assert b[i] == Bump(t[1..], x)[i - 1];
        assert t[1..][i - 1] == t[i];
      }
    } else {
      forall i | 0 < i < |t| ensures t[i].0 != x {
        assert Keys(t)[i] == t[i].0;
      }
    }
  }

  /** The counts of `xs`, keyed in first-occurrence order, as the counting loops build them. */
  function Tally(xs: seq<string>): Counts {
    if xs == [] then [] else Bump(Tally(xs[..|xs| - 1]), xs[|xs| - 1])
  }

  /** The keys of the table are the distinct elements of `xs`. */
  lemma {:induction false} TallyKeys(xs: seq<string>)
    ensures Distinct(Keys(Tally(xs)))
    ensures forall k :: k in Keys(Tally(xs)) <==> k in xs
    ensures forall i :: 0 <= i < |Tally(xs)| ==> Tally(xs)[i].0 in xs
  {
    if xs != [] {
      var p, x := xs[..|xs| - 1], xs[|xs| - 1];
      assert xs == p + [x];
      TallyKeys(p);
      var tp := Tally(p);
      var t := Tally(xs);
      if x in Keys(tp) {
        BumpOld(tp, x);
        assert Keys(t) == Keys(tp);
      } else {
        BumpNew(tp, x);
        assert Keys(t) == Keys(tp) + [x];
      }
    }
  }

  /** Each entry holds the true count of its key. */
  lemma {:induction false} TallyCounts(xs: seq<string>)
    ensures forall i :: 0 <= i < |Tally(xs)| ==> Tally(xs)[i].1 == Occ(xs, Tally(xs)[i].0)
  {
    if xs != [] {
      var p, x := xs[..|xs| - 1], xs[|xs| - 1];
      assert xs == p + [x];
      assert multiset(xs) == multiset(p) + multiset{x};
      TallyKeys(p);
      TallyCounts(p);
      var tp := Tally(p);
      if x in Keys(tp) {
        BumpOld(tp, x);
      } else {
        BumpNew(tp, x);
        assert x !in p;
      }
    }
  }

  /** The keys of `t` occur in `xs`, in the order of their first occurrences. */
  predicate FirstOrdered(t: Counts, xs: seq<string>) {
    (forall i :: 0 <= i < |t| ==> t[i].0 in xs) &&
    forall i, j :: 0 <= i < j < |t| ==> FirstIndex(xs, t[i].0) < FirstIndex(xs, t[j].0)
  }

  /** Appending an element leaves the first occurrences of earlier keys in place. */
  lemma OrderSnocOld(p: seq<string>, x: string, tp: Counts, t: Counts)
    requires FirstOrdered(tp, p) && |t| == |tp|
    requires forall i :: 0 <= i < |t| ==> t[i].0 == tp[i].0
    ensures FirstOrdered(t, p + [x])
  {
    forall i | 0 <= i < |t| ensures t[i].0 in p + [x] {
      assert tp[i].0 in p;
    }
    forall i, j | 0 <= i < j < |t| ensures FirstIndex(p + [x], t[i].0) < FirstIndex(p + [x], t[j].0) {
      FirstIndexSnoc(p, x, tp[i].0);
      FirstIndexSnoc(p, x, tp[j].0);
    }
  }

  /** A new element, keyed last, first occurs after every earlier key. */
  lemma OrderSnocNew(p: seq<string>, x: string, tp: Counts)
    requires FirstOrdered(tp, p) && x !in p
    ensures FirstOrdered(tp + [(x, 1)], p + [x])
  {
    var xs, t := p + [x], tp + [(x, 1)];
    assert xs[..|p|] == p;
    FirstIndexUnique(xs, x, |p|);
    forall i | 0 <= i < |t| ensures t[i].0 in xs {
      if i < |tp| {
        assert t[i] == tp[i];
      }
    }
    forall i, j | 0 <= i < j < |t| ensures FirstIndex(xs, t[i].0) < FirstIndex(xs, t[j].0) {
      assert t[i] == tp[i];
      FirstIndexSnoc(p, x, tp[i].0);
      if j < |tp| {
        assert t[j] == tp[j];
        FirstIndexSnoc(p, x, tp[j].0);
      }
    }
  }

  /** The keys appear in the order in which they first occur in `xs`. */
  lemma {:induction false} TallyOrder(xs: seq<string>)
    ensures FirstOrdered(Tally(xs), xs)
  {
    if xs != [] {
      var p, x := xs[..|xs| - 1], xs[|xs| - 1];
      assert xs == p + [x];
      TallyKeys(p);
      TallyOrder(p);
      var tp := Tally(p);
      if x in Keys(tp) {
        BumpOld(tp, x);
        OrderSnocOld(p, x, tp, Tally(xs));
      } else {
        BumpNew(tp, x);
        OrderSnocNew(p, x, tp);
      }
    }
  }

  /** The counts add up to the number of elements. */
  lemma {:induction false} TallyTotal(xs: seq<string>)
    ensures Total(Tally(xs)) == |xs|
  {
    if xs != [] {
      TallyTotal(xs[..|xs| - 1]);
      BumpTotal(Tally(xs[..|xs| - 1]), xs[|xs| - 1]);
    }
  }

  /** When `k` is one of the keys, its entry holds the count. */
  lemma TallyLookup(xs: seq<string>, k: string)
    requires k in xs
    ensures exists i :: 0 <= i < |Tally(xs)| && Tally(xs)[i] == (k, Occ(xs, k))
  {
    TallyKeys(xs);
    TallyCounts(xs);
    var i :| 0 <= i < |Keys(Tally(xs))| && Keys(Tally(xs))[i] == k;
    assert Tally(xs)[i] == (k, Occ(xs, k));
  }

  function CountKey(e: (string, nat)): int {
    e.1
  }

  /** `Counter(xs).most_common(n)`: for `n >= 0`, `sorted(items, key=count,
      reverse=True)[:n]`; `heapq.nlargest` returns nothing for a negative `n`. */
  function MostCommon(xs: seq<string>, n: int): Counts {
    if n < 0 then [] else PyTake(SortDesc(Tally(xs), CountKey), n)
  }

  /** Every entry of the sorted table is a true count of an element of `xs`. */
  lemma SortedTallyEntries(xs: seq<string>)
    ensures forall i :: 0 <= i < |SortDesc(Tally(xs), CountKey)| ==>
      SortDesc(Tally(xs), CountKey)[i].0 in xs &&
      SortDesc(Tally(xs), CountKey)[i].1 == Occ(xs, SortDesc(Tally(xs), CountKey)[i].0)
  {
    var t := Tally(xs);
    var s := SortDesc(t, CountKey);
    TallyKeys(xs);
    TallyCounts(xs);
    forall i | 0 <= i < |s| ensures s[i].0 in xs && s[i].1 == Occ(xs, s[i].0) {
      assert s[i] in multiset(t);
      var m :| 0 <= m < |t| && t[m] == s[i];
      assert Keys(t)[m] == s[i].0;
    }
  }

  /** Among entries of equal count, the sorted table keeps first-occurrence order. */
  lemma SortedTallyTies(xs: seq<string>)
    ensures forall i, j :: (0 <= i < j < |SortDesc(Tally(xs), CountKey)| &&
      SortDesc(Tally(xs), CountKey)[i].1 == SortDesc(Tally(xs), CountKey)[j].1) ==>
      SortDesc(Tally(xs), CountKey)[i].0 in xs && SortDesc(Tally(xs), CountKey)[j].0 in xs &&
      FirstIndex(xs, SortDesc(Tally(xs), CountKey)[i].0) < FirstIndex(xs, SortDesc(Tally(xs), CountKey)[j].0)
  {
    var t := Tally(xs);
    TallyKeys(xs);
    TallyOrder(xs);
    var before := (a: (string, nat), b: (string, nat)) =>
      a.0 in xs && b.0 in xs && FirstIndex(xs, a.0) < FirstIndex(xs, b.0);
    assert forall i :: 0 <= i < |t| ==> t[i].0 in xs by {
      forall i | 0 <= i < |t| ensures t[i].0 in xs {
        assert Keys(t)[i] == t[i].0;
      }
    }
    assert TiesOrdered(t, CountKey, before);
    SortDescTiesOrdered(t, CountKey, before);
  }

  /** The sorted table has distinct keys. */
  lemma SortedTallyDistinct(xs: seq<string>)
    ensures Distinct(Keys(SortDesc(Tally(xs), CountKey)))
  {
    var s := SortDesc(Tally(xs), CountKey);
    SortedTallyEntries(xs);
    SortedTallyTies(xs);
    forall i, j | 0 <= i < j < |s| ensures Keys(s)[i] != Keys(s)[j] {
      var a, b := s[i], s[j];
      assert a.0 == b.0 ==> a.1 == b.1;
    }
  }

  /** The entries of `most_common(n)` are true counts of distinct elements, by
      non-increasing count, ties in first-encountered order. */
  lemma MostCommonFacts(xs: seq<string>, n: int)
    ensures n >= 0 ==> |MostCommon(xs, n)| <= n
    ensures |MostCommon(xs, n)| <= |Tally(xs)|
    ensures forall i :: 0 <= i < |MostCommon(xs, n)| ==>
      MostCommon(xs, n)[i].0 in xs && MostCommon(xs, n)[i].1 == Occ(xs, MostCommon(xs, n)[i].0)
    ensures Distinct(Keys(MostCommon(xs, n)))
    ensures SortedDesc(MostCommon(xs, n), CountKey)
    ensures forall i, j :: 0 <= i < j < |MostCommon(xs, n)| && MostCommon(xs, n)[i].1 == MostCommon(xs, n)[j].1 ==>
      FirstIndex(xs, MostCommon(xs, n)[i].0) < FirstIndex(xs, MostCommon(xs, n)[j].0)
  {
    var s := SortDesc(Tally(xs), CountKey);
    var r := MostCommon(xs, n);
    assert r == s[..|r|];
    assert forall i :: 0 <= i < |r| ==> r[i] == s[i];
    SortedTallyEntries(xs);
    SortedTallyTies(xs);
    SortedTallyDistinct(xs);
    assert forall i :: 0 <= i < |r| ==> Keys(r)[i] == Keys(s)[i];
  }

  /** No element left out of `most_common(n)` is more frequent than any element listed. */
  lemma MostCommonIsTop(xs: seq<string>, n: int, k: string)
    requires k in xs && k !in Keys(MostCommon(xs, n))
    ensures forall i :: 0 <= i < |MostCommon(xs, n)| ==> MostCommon(xs, n)[i].1 >= Occ(xs, k)
  {
    var t := Tally(xs);
    var s := SortDesc(t, CountKey);
    var r := MostCommon(xs, n);
    assert r == s[..|r|];
    TallyLookup(xs, k);
    var m :| 0 <= m < |t| && t[m] == (k, Occ(xs, k));
    assert t[m] in multiset(s);
    var p :| 0 <= p < |s| && s[p] == t[m];
    assert p >= |r| by {
      assert forall q :: 0 <= q < |r| ==> Keys(r)[q] == s[q].0;
    }
    forall i | 0 <= i < |r| ensures r[i].1 >= Occ(xs, k) {
      assert r[i] == s[i];
      assert CountKey(s[i]) >= CountKey(s[p]);
    }
  }

  /** When fewer than `n` elements are kept, every element is kept. */
  lemma MostCommonComplete(xs: seq<string>, n: int, k: string)
    requires n >= 0 && k in xs && |MostCommon(xs, n)| < n
    ensures k in Keys(MostCommon(xs, n))
  {
    var t := Tally(xs);
    var s := SortDesc(t, CountKey);
    var r := MostCommon(xs, n);
    assert r == s;
    TallyLookup(xs, k);
    var m :| 0 <= m < |t| && t[m] == (k, Occ(xs, k));
    assert t[m] in multiset(s);
    var p :| 0 <= p < |s| && s[p] == t[m];
    assert Keys(r)[p] == k;
  }
}
