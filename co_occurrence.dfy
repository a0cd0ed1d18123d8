/** `Analyzer.get_topic_intersections` (src/analyzer.py): for each topic,
    the topics that appear in the same records, counted once per ordered
    pair of distinct positions in a record's topic list. Each inner
    `Counter` is held as the history of what it counted. */
module CoOccurrence {
  import opened Text
  import opened Counting
  import opened ClassPage
  import opened Analyzer

  type Table = map<String, seq<String>>

  /** The history counted for `t`, empty for a topic that has no counter. */
  function Get(co: Table, t: String): seq<String> {
    if t in co then co[t] else []
  }

  /** The topics at positions `j < n` other than `i`. */
  function OthersUpTo(row: seq<String>, i: nat, n: nat): seq<String>
    requires n <= |row|
  {
    if n == 0 then [] else OthersUpTo(row, i, n - 1) + (if n - 1 == i then [] else [row[n - 1]])
  }

  /** What the inner loop counts for position `i`: every other position's topic. */
  function Others(row: seq<String>, i: nat): seq<String> {
    OthersUpTo(row, i, |row|)
  }

  /** The middle loop over the first `n` positions of one record's topics. */
  function RowUpTo(co: Table, row: seq<String>, n: nat): Table
    requires n <= |row|
  {
    if n == 0 then co
    else
      var c := RowUpTo(co, row, n - 1);
      c[row[n - 1] := Get(c, row[n - 1]) + Others(row, n - 1)]
  }

  /** The table after the outer loop over the topic lists of the records. */
  function CoOf(rows: seq<seq<String>>): Table {
    if |rows| == 0 then map[]
    else var last := rows[|rows| - 1]; RowUpTo(CoOf(rows[..|rows| - 1]), last, |last|)
  }

  function TopicRows(data: seq<Record>): (rows: seq<seq<String>>)
    ensures |rows| == |data| && forall i :: 0 <= i < |data| ==> rows[i] == Values(data[i], Topic)
  {
    seq(|data|, i requires 0 <= i < |data| => Values(data[i], Topic))
  }

  /** The result: each topic's five most frequent companions. */
  function Intersections(data: seq<Record>): map<String, seq<(String, nat)>> {
    if |data| == 0 then map[]
    else var co := CoOf(TopicRows(data)); map t | t in co :: MostCommon(co[t], 5)
  }

  /** The number of ordered pairs of distinct positions of a record's topics
      holding `a` then `b`. */
  function RowPairs(row: seq<String>, a: String, b: String): int {
    Count(row, a) * Count(row, b) - (if a == b then Count(row, a) else 0)
  }

  function TotalPairs(rows: seq<seq<String>>, a: String, b: String): int {
    if |rows| == 0 then 0 else TotalPairs(rows[..|rows| - 1], a, b) + RowPairs(rows[|rows| - 1], a, b)
  }

  lemma CountSnoc(s: seq<String>, x: String, y: String)
    ensures Count(s + [x], y) == Count(s, y) + (if x == y then 1 else 0)
  {
    assert multiset(s + [x]) == multiset(s) + multiset{x};
  }

  /** The occurrences of `b` among the first `n` positions of `row`. */
  function OccUpTo(row: seq<String>, n: nat, b: String): nat
    requires n <= |row|
  {
    if n == 0 then 0 else OccUpTo(row, n - 1, b) + (if row[n - 1] == b then 1 else 0)
  }

  lemma {:induction false} OccUpToCount(row: seq<String>, n: nat, b: String)
    requires n <= |row|
    ensures OccUpTo(row, n, b) == Count(row[..n], b)
  {
    if n > 0 {
      OccUpToCount(row, n - 1, b);
      assert row[..n] == row[..n - 1] + [row[n - 1]];
      CountSnoc(row[..n - 1], row[n - 1], b);
    }
  }

  /** The occurrences of `b` among the first `n` positions of `row`, skipping position `i`. */
  function OthersOcc(row: seq<String>, i: nat, n: nat, b: String): nat
    requires n <= |row|
  {
    if n == 0 then 0 else OthersOcc(row, i, n - 1, b) + (if n - 1 != i && row[n - 1] == b then 1 else 0)
  }

  lemma {:induction false} OthersOccCount(row: seq<String>, i: nat, n: nat, b: String)
    requires n <= |row|
    ensures Count(OthersUpTo(row, i, n), b) == OthersOcc(row, i, n, b)
  {
    if n > 0 {
      OthersOccCount(row, i, n - 1, b);
      var prev := OthersUpTo(row, i, n - 1);
      if n - 1 == i {
        assert OthersUpTo(row, i, n) == prev;
      } else {
        assert OthersUpTo(row, i, n) == prev + [row[n - 1]];
        CountSnoc(prev, row[n - 1], b);
      }
    }
  }

  lemma {:induction false} OthersOccUpTo(row: seq<String>, i: nat, n: nat, b: String)
    requires n <= |row|
    ensures OthersOcc(row, i, n, b) + (if i < n && row[i] == b then 1 else 0) == OccUpTo(row, n, b)
  {
    if n > 0 {
      OthersOccUpTo(row, i, n - 1, b);
    }
  }

  /** Position `i` sees every occurrence of `b` except itself. */
  lemma OthersUpToCount(row: seq<String>, i: nat, n: nat, b: String)
    requires n <= |row|
    ensures Count(OthersUpTo(row, i, n), b) ==
            OccUpTo(row, n, b) - (if i < n && row[i] == b then 1 else 0)
  {
    OthersOccCount(row, i, n, b);
    OthersOccUpTo(row, i, n, b);
  }

  lemma MulStep(c: int, x: int)
    ensures (c + 1) * x == c * x + x
  {
  }

  lemma MulMinus(c: int, x: int, d: int)
    ensures c * (x - d) == c * x - c * d
  {
  }

  lemma CountAppend(s: seq<String>, t: seq<String>, b: String)
    ensures Count(s + t, b) == Count(s, b) + Count(t, b)
  {
    assert multiset(s + t) == multiset(s) + multiset(t);
  }

  /** One step of the middle loop, for the history of `a`. */
  lemma RowStepCount(c: Table, row: seq<String>, m: nat, a: String, b: String)
    requires m < |row|
    ensures var c' := c[row[m] := Get(c, row[m]) + Others(row, m)];
      Count(Get(c', a), b) ==
      Count(Get(c, a), b) + (if row[m] == a then OccUpTo(row, |row|, b) - (if a == b then 1 else 0) else 0)
  {
    var c' := c[row[m] := Get(c, row[m]) + Others(row, m)];
    if row[m] == a {
      assert Get(c', a) == Get(c, a) + Others(row, m);
      CountAppend(Get(c, a), Others(row, m), b);
      OthersUpToCount(row, m, |row|, b);
    } else {
      assert Get(c', a) == Get(c, a);
    }
  }

  /** What the first `n` steps of the middle loop add to `a`'s count of `b`:
      `x` for each position holding `a`. */
  function Added(row: seq<String>, n: nat, a: String, x: int): int
    requires n <= |row|
  {
    if n == 0 then 0 else Added(row, n - 1, a, x) + (if row[n - 1] == a then x else 0)
  }

  lemma {:induction false} AddedIsProduct(row: seq<String>, n: nat, a: String, x: int)
    requires n <= |row|
    ensures Added(row, n, a, x) == OccUpTo(row, n, a) * x
  {
    if n > 0 {
      AddedIsProduct(row, n - 1, a, x);
      if row[n - 1] == a {
        MulStep(OccUpTo(row, n - 1, a), x);
      }
    }
  }

  /** The middle loop adds, to `a`'s history, `Count(b) - [a == b]`
      occurrences of `b` for every position holding `a`. */
  lemma {:induction false} RowUpToCount(co: Table, row: seq<String>, n: nat, a: String, b: String)
    requires n <= |row|
    ensures Count(Get(RowUpTo(co, row, n), a), b) ==
            Count(Get(co, a), b) + Added(row, n, a, OccUpTo(row, |row|, b) - (if a == b then 1 else 0))
  {
    if n > 0 {
      var m := n - 1;
      RowUpToCount(co, row, m, a, b);
      var c := RowUpTo(co, row, m);
      assert RowUpTo(co, row, n) == c[row[m] := Get(c, row[m]) + Others(row, m)];
      RowStepCount(c, row, m, a, b);
    }
  }

  /** `co[a][b]` counts the ordered pairs of distinct positions holding `a`
      then `b`, over all records. */
  lemma {:induction false} CoCount(rows: seq<seq<String>>, a: String, b: String)
    ensures Count(Get(CoOf(rows), a), b) == TotalPairs(rows, a, b)
  {
    if |rows| > 0 {
      var last := rows[|rows| - 1];
      CoCount(rows[..|rows| - 1], a, b);
      RowUpToCount(CoOf(rows[..|rows| - 1]), last, |last|, a, b);
      AddedIsProduct(last, |last|, a, OccUpTo(last, |last|, b) - (if a == b then 1 else 0));
      OccUpToCount(last, |last|, a);
      OccUpToCount(last, |last|, b);
      assert last[..|last|] == last;
      MulMinus(Count(last, a), Count(last, b), if a == b then 1 else 0);
    }
  }

  lemma {:induction false} TotalPairsSymmetric(rows: seq<seq<String>>, a: String, b: String)
    ensures TotalPairs(rows, a, b) == TotalPairs(rows, b, a)
  {
    if |rows| > 0 {
      TotalPairsSymmetric(rows[..|rows| - 1], a, b);
      var last := rows[|rows| - 1];
      assert Count(last, a) * Count(last, b) == Count(last, b) * Count(last, a);
    }
  }

  /** Before the top-5 cut the table is symmetric: `co[a][b] == co[b][a]`. */
  lemma CoSymmetric(rows: seq<seq<String>>, a: String, b: String)
    ensures Count(Get(CoOf(rows), a), b) == Count(Get(CoOf(rows), b), a)
  {
    CoCount(rows, a, b);
    CoCount(rows, b, a);
    TotalPairsSymmetric(rows, a, b);
  }

  lemma {:induction false} RowUpToKeys(co: Table, row: seq<String>, n: nat)
    requires n <= |row|
    ensures forall t :: t in RowUpTo(co, row, n) <==> t in co || t in row[..n]
  {
    if n > 0 {
      RowUpToKeys(co, row, n - 1);
      assert row[..n] == row[..n - 1] + [row[n - 1]];
    }
  }

  /** The table has a counter for exactly the topics of the records. */
  lemma {:induction false} CoKeys(rows: seq<seq<String>>)
    ensures forall t :: t in CoOf(rows) <==> exists i :: 0 <= i < |rows| && t in rows[i]
  {
    if |rows| > 0 {
      var n := |rows| - 1;
      var last := rows[n];
      CoKeys(rows[..n]);
      RowUpToKeys(CoOf(rows[..n]), last, |last|);
      assert last[..|last|] == last;
      forall t ensures t in CoOf(rows) <==> exists i :: 0 <= i < |rows| && t in rows[i] {
        if t in CoOf(rows[..n]) {
          var i :| 0 <= i < n && t in rows[..n][i];
          assert rows[..n][i] == rows[i];
        }
        if i :| 0 <= i < |rows| && t in rows[i] {
          if i < n {
            assert rows[..n][i] == rows[i];
          }
        }
      }
    }
  }

  /** `get_topic_intersections`: `{}` for no records; otherwise a key for
      every topic of some record and for nothing else, each holding at most
      five companions with their true co-occurrence counts, by non-increasing
      count, where a count of `b` under `a` is the number of ordered pairs of
      distinct positions holding `a` then `b`, and so the same as the count
      of `a` under `b`. */
  lemma IntersectionsSpec(data: seq<Record>)
    ensures var res := Intersections(data);
      && (|data| == 0 ==> res == map[])
      && (forall t :: t in res <==> exists i :: 0 <= i < |data| && t in Values(data[i], Topic))
      && forall t :: t in res ==>
           var h := Get(CoOf(TopicRows(data)), t);
           && TopCounts(res[t], h, 5)
           && forall b :: Count(h, b) == TotalPairs(TopicRows(data), t, b) == TotalPairs(TopicRows(data), b, t)
  {
    var rows := TopicRows(data);
    CoKeys(rows);
    forall t | t in Intersections(data)
      ensures var h := Get(CoOf(rows), t);
        && TopCounts(Intersections(data)[t], h, 5)
        && forall b :: Count(h, b) == TotalPairs(rows, t, b) == TotalPairs(rows, b, t)
    {
      TopCountsOf(CoOf(rows)[t], 5);
      forall b ensures Count(Get(CoOf(rows), t), b) == TotalPairs(rows, t, b) == TotalPairs(rows, b, t) {
        CoCount(rows, t, b);
        TotalPairsSymmetric(rows, t, b);
      }
    }
  }

  /** One step of the middle loop: make sure `topics[i]` has a counter,
      then count every other position's topic under it. */
  method CountCompanions(co0: Table, topics: seq<String>, i: nat) returns (co: Table)
    requires i < |topics|
    ensures co == co0[topics[i] := Get(co0, topics[i]) + Others(topics, i)]
  {
    var t1 := topics[i];
    co := co0;
    if t1 !in co {
      co := co[t1 := []];
    }
    var counted := co[t1];
    assert counted + OthersUpTo(topics, i, 0) == counted;
    for j := 0 to |topics|
      invariant co == co0[t1 := counted + OthersUpTo(topics, i, j)]
    {
      if i == j {
        assert OthersUpTo(topics, i, j + 1) == OthersUpTo(topics, i, j);
        continue;
      }
      var t2 := topics[j];
      assert co[t1] + [t2] == counted + OthersUpTo(topics, i, j + 1);
      co := co[t1 := co[t1] + [t2]];
    }
  }

  /** The middle loop, over one record's topics. */
  method AddRecordTopics(co0: Table, topics: seq<String>) returns (co: Table)
    ensures co == RowUpTo(co0, topics, |topics|)
  {
    co := co0;
    for i := 0 to |topics|
      invariant co == RowUpTo(co0, topics, i)
    {
      co := CountCompanions(co, topics, i);
    }
  }

  /** The formatting loop: each counter's `most_common(5)`. */
  method TopFive(co: Table) returns (results: map<String, seq<(String, nat)>>)
    ensures results == map t | t in co :: MostCommon(co[t], 5)
  {
    results := map[];
    var keys := co.Keys;
    while keys != {}
      invariant keys <= co.Keys
      invariant results.Keys == co.Keys - keys
      invariant forall t :: t in results ==> results[t] == MostCommon(co[t], 5)
      decreases |keys|
    {
      var topic :| topic in keys;
      results := results[topic := MostCommon(co[topic], 5)];
      keys := keys - {topic};
    }
  }

  /** `get_topic_intersections` */
  method TopicIntersections(data: seq<Record>) returns (results: map<String, seq<(String, nat)>>)
    ensures results == Intersections(data)
  {
    if |data| == 0 {
      return map[];
    }
    var rows := TopicRows(data);
    var co: Table := map[];
    for r := 0 to |rows|
      invariant co == CoOf(rows[..r])
    {
      assert rows[..r + 1][..r] == rows[..r];
      co := AddRecordTopics(co, rows[r]);
    }
    assert rows[..|rows|] == rows;
    results := TopFive(co);
  }
}
