/** Python's `collections.Counter` and stable `sorted(..., reverse=True)`.
    A counter is represented by the history of everything it counted: the
    count of `x` is the number of occurrences of `x` in the history, and the
    counter's key order (insertion order) is the order of first occurrence. */
module Counting {

  /** `Counter(h)[x]` */
  function Count<T(==)>(h: seq<T>, x: T): nat {
    multiset(h)[x]
  }

  /** The counter as a key function. */
  function Counts<T(==)>(h: seq<T>): T -> int {
    x => Count(h, x)
  }

  predicate NoDup<T(==)>(s: seq<T>) {
    forall i, j :: 0 <= i < j < |s| ==> s[i] != s[j]
  }

  /** A sequence without repetitions has as many elements as its set. */
  lemma NoDupCard<T>(s: seq<T>)
    requires NoDup(s)
    ensures |set x | x in s| == |s|
  {
    if |s| > 0 {
      var t := s[..|s| - 1];
      NoDupCard(t);
      assert s == t + [s[|s| - 1]];
      assert (set x | x in s) == (set x | x in t) + {s[|s| - 1]};
    }
  }

  /** Position of the first occurrence of `x` in `h`, or `|h|` when absent. */
  function FirstIndex<T(==)>(h: seq<T>, x: T): (r: nat)
    ensures r <= |h|
    ensures r < |h| <==> x in h
    ensures r < |h| ==> h[r] == x
    ensures forall j :: 0 <= j < r ==> h[j] != x
  {
    if |h| == 0 then 0
    else if h[0] == x then 0
    else 1 + FirstIndex(h[1..], x)
  }

  /** First occurrence as a rank function. */
  function FirstIndices<T(==)>(h: seq<T>): T -> int {
    x => FirstIndex(h, x)
  }

  lemma FirstIndexPrefix<T>(h: seq<T>, k: nat, x: T)
    requires k <= |h| && x in h[..k]
    ensures FirstIndex(h, x) == FirstIndex(h[..k], x)
  {
    var a, b := FirstIndex(h, x), FirstIndex(h[..k], x);
    assert b < k && h[..k][b] == h[b] == x;
    assert a <= b;
    assert h[..k][a] == h[a] == x;
  }

  /** The keys of `Counter(h)`, in insertion order: each counted value once,
      in order of first occurrence. */
  function Distinct<T(==,!new)>(h: seq<T>): (d: seq<T>)
    ensures NoDup(d)
    ensures forall x :: x in d <==> x in h
  {
    if |h| == 0 then []
    else
      var p := h[..|h| - 1];
      assert h == p + [h[|h| - 1]];
      var d := Distinct(p);
      if h[|h| - 1] in d then d else d + [h[|h| - 1]]
  }

  /** Keys appear in order of first occurrence. */
  lemma {:induction false} DistinctInFirstOrder<T(!new)>(h: seq<T>)
    ensures forall i, j :: 0 <= i < j < |Distinct(h)| ==>
              FirstIndex(h, Distinct(h)[i]) < FirstIndex(h, Distinct(h)[j])
  {
    if |h| > 0 {
      var n := |h| - 1;
      var p := h[..n];
      assert h == p + [h[n]];
      DistinctInFirstOrder(p);
      var dp := Distinct(p);
      var d := Distinct(h);
      forall i | 0 <= i < |dp|
        ensures FirstIndex(h, dp[i]) == FirstIndex(p, dp[i]) < |p|
      {
        FirstIndexPrefix(h, n, dp[i]);
      }
      if h[n] !in dp {
        assert h[n] !in p;
        assert FirstIndex(h, h[n]) == n;
      }
    }
  }

  /** Places `x` after every element whose key is at least `x`'s key. */
  function Insert<T(==)>(s: seq<T>, x: T, key: T -> int): (r: seq<T>)
    ensures |r| == |s| + 1
    ensures multiset(r) == multiset(s) + multiset{x}
  {
    if |s| == 0 then [x]
    else if key(s[0]) >= key(x) then
      assert s == [s[0]] + s[1..];
      [s[0]] + Insert(s[1..], x, key)
    else [x] + s
  }

  /** `sorted(xs, key=key, reverse=True)`: a stable insertion sort. */
  function SortDesc<T(==)>(xs: seq<T>, key: T -> int): (r: seq<T>)
    ensures |r| == |xs|
    ensures multiset(r) == multiset(xs)
  {
    if |xs| == 0 then []
    else
      assert xs == xs[..|xs| - 1] + [xs[|xs| - 1]];
      Insert(SortDesc(xs[..|xs| - 1], key), xs[|xs| - 1], key)
  }

  /** `a` comes before `b` in a stable descending sort of a sequence whose
      elements appear in increasing `rank`. */
  predicate Precedes<T>(a: T, b: T, key: T -> int, rank: T -> int) {
    key(a) > key(b) || (key(a) == key(b) && rank(a) < rank(b))
  }

  predicate SortedBy<T>(s: seq<T>, key: T -> int, rank: T -> int) {
    forall i, j :: 0 <= i < j < |s| ==> Precedes(s[i], s[j], key, rank)
  }

  predicate RankIncreasing<T>(s: seq<T>, rank: T -> int) {
    forall i, j :: 0 <= i < j < |s| ==> rank(s[i]) < rank(s[j])
  }

  lemma {:induction false} InsertSorted<T>(s: seq<T>, x: T, key: T -> int, rank: T -> int)
    requires SortedBy(s, key, rank)
    requires forall i :: 0 <= i < |s| ==> rank(s[i]) < rank(x)
    ensures SortedBy(Insert(s, x, key), key, rank)
  {
    if |s| > 0 && key(s[0]) >= key(x) {
      var t := s[1..];
      InsertSorted(t, x, key, rank);
      var r := Insert(s, x, key);
      var ti := Insert(t, x, key);
      assert r == [s[0]] + ti;
      forall j | 0 < j < |r| ensures Precedes(s[0], r[j], key, rank) {
        assert r[j] == ti[j - 1];
        assert r[j] in multiset(ti);
        if r[j] != x {
          assert r[j] in multiset(t);
          var m :| 0 <= m < |t| && t[m] == r[j];
          assert s[m + 1] == r[j];
        }
      }
    }
  }

  /** The sort is stable and descending: when the input is in increasing rank,
      the output is ordered by key, and by rank among equal keys. */
  lemma {:induction false} SortDescSorted<T>(xs: seq<T>, key: T -> int, rank: T -> int)
    requires RankIncreasing(xs, rank)
    ensures SortedBy(SortDesc(xs, key), key, rank)
  {
    if |xs| > 0 {
      var n := |xs| - 1;
      var p := xs[..n];
      SortDescSorted(p, key, rank);
      var sp := SortDesc(p, key);
      forall i | 0 <= i < |sp| ensures rank(sp[i]) < rank(xs[n]) {
        assert sp[i] in multiset(p);
        var m :| 0 <= m < |p| && p[m] == sp[i];
        assert xs[m] == sp[i];
      }
      InsertSorted(sp, xs[n], key, rank);
    }
  }

  function Keys<T>(r: seq<(T, nat)>): (ks: seq<T>)
    ensures |ks| == |r| && forall i :: 0 <= i < |r| ==> ks[i] == r[i].0
  {
    seq(|r|, i requires 0 <= i < |r| => r[i].0)
  }

  /** The keys of `Counter(h)` by decreasing count; insertion order among ties. */
  function ByCount<T(==,!new)>(h: seq<T>): seq<T> {
    SortDesc(Distinct(h), Counts(h))
  }

  /** `Counter(h).most_common(k)` */
  function MostCommon<T(==,!new)>(h: seq<T>, k: nat): seq<(T, nat)> {
    var order := ByCount(h);
    var n := if k < |order| then k else |order|;
    seq(n, i requires 0 <= i < n => (order[i], Count(h, order[i])))
  }

  /** The counter's keys by count: each counted value exactly once, by
      decreasing count and, among equal counts, in insertion order. */
  lemma ByCountSpec<T(!new)>(h: seq<T>)
    ensures NoDup(ByCount(h))
    ensures forall x :: x in ByCount(h) <==> x in h
    ensures SortedBy(ByCount(h), Counts(h), FirstIndices(h))
  {
    var d := Distinct(h);
    var order := ByCount(h);
    DistinctInFirstOrder(h);
    SortDescSorted(d, Counts(h), FirstIndices(h));
    forall x ensures x in order <==> x in h {
      assert x in order <==> x in multiset(order);
      assert x in d <==> x in multiset(d);
    }
    forall i, j | 0 <= i < j < |order| ensures order[i] != order[j] {
      assert Precedes(order[i], order[j], Counts(h), FirstIndices(h));
    }
  }

  /** The entries of `most_common(k)`: the first `k` keys by count, each
      with its count. */
  lemma MostCommonKeys<T(!new)>(h: seq<T>, k: nat)
    ensures var r := MostCommon(h, k);
      && |r| == (if k < |Distinct(h)| then k else |Distinct(h)|)
      && Keys(r) == ByCount(h)[..|r|]
      && forall i :: 0 <= i < |r| ==> r[i].1 == Count(h, r[i].0)
  {
    var r := MostCommon(h, k);
    assert Keys(r) == ByCount(h)[..|r|];
  }

  /** What `most_common(k)` promises: at most `k` distinct counted values with
      their true counts, by non-increasing count, and nothing left out that
      was counted more often than the last entry. */
  lemma MostCommonSpec<T(!new)>(h: seq<T>, k: nat)
    ensures var r := MostCommon(h, k);
      && |r| == (if k < |Distinct(h)| then k else |Distinct(h)|)
      && (forall i :: 0 <= i < |r| ==> r[i].0 in h && r[i].1 == Count(h, r[i].0) >= 1)
      && NoDup(Keys(r))
      && (forall i, j :: 0 <= i < j < |r| ==> r[i].1 >= r[j].1)
      && (forall x :: x in h && x !in Keys(r) ==>
            |r| == k && (k > 0 ==> Count(h, x) <= r[k - 1].1))
  {
    var order := ByCount(h);
    var r := MostCommon(h, k);
    ByCountSpec(h);
    MostCommonKeys(h, k);
    var ks := Keys(r);
    forall i | 0 <= i < |r| ensures r[i].0 in h && Count(h, r[i].0) >= 1 {
      assert r[i].0 == order[i];
      assert order[i] in h;
    }
    forall i, j | 0 <= i < j < |r| ensures ks[i] != ks[j] {
      assert ks[i] == order[i] && ks[j] == order[j];
    }
    forall i, j | 0 <= i < j < |r| ensures r[i].1 >= r[j].1 {
      assert ks[i] == order[i] && ks[j] == order[j];
      assert Precedes(order[i], order[j], Counts(h), FirstIndices(h));
    }
    forall x | x in h && x !in ks
      ensures |r| == k && (k > 0 ==> Count(h, x) <= r[k - 1].1)
    {
      var m :| 0 <= m < |order| && order[m] == x;
      assert m >= |r|;
      if k > 0 {
        assert ks[k - 1] == order[k - 1];
        assert Precedes(order[k - 1], order[m], Counts(h), FirstIndices(h));
      }
    }
  }

  /** The two facts `dict(most_common(k))` relies on: the keys are distinct
      and every count is at least one. */
  lemma MostCommonPositive<T(!new)>(h: seq<T>, k: nat)
    ensures NoDup(Keys(MostCommon(h, k)))
    ensures forall j :: 0 <= j < |MostCommon(h, k)| ==> MostCommon(h, k)[j].1 >= 1
  {
    MostCommonSpec(h, k);
  }
}
