/** The aggregations of `Analyzer` (src/analyzer.py) over the saved class
    records. The DataFrame is the sequence of records; a record without
    `tags` reads as empty tag lists and one without `summary` as "". */
module Analyzer {
  import opened Text
  import opened Wrappers
  import opened Counting
  import opened ClassPage

  /** A record's `topics`, `industries` or `products` column. */
  function Values(r: Record, k: TagKind): seq<String> {
    if r.tags.Some? then TagList(r.tags.value, k) else []
  }

  /** `summary` after `fillna('')` */
  function SummaryText(r: Record): String {
    r.summary.GetOr("")
  }

  // ---------------------------------------------------------------------
  // get_all_topics / get_all_industries / get_all_products

  function SetOf(s: seq<String>): set<String> {
    set v | v in s
  }

  /** The values of one tag column over the first records, as a set. */
  function UnionOf(data: seq<Record>, k: TagKind): set<String> {
    if |data| == 0 then {}
    else UnionOf(data[..|data| - 1], k) + SetOf(Values(data[|data| - 1], k))
  }

  lemma {:induction false} UnionOfSpec(data: seq<Record>, k: TagKind)
    ensures forall v :: v in UnionOf(data, k) <==> exists i :: 0 <= i < |data| && v in Values(data[i], k)
  {
    if |data| > 0 {
      var n := |data| - 1;
      UnionOfSpec(data[..n], k);
      forall v ensures v in UnionOf(data, k) <==> exists i :: 0 <= i < |data| && v in Values(data[i], k) {
        if v in UnionOf(data[..n], k) {
          var i :| 0 <= i < n && v in Values(data[..n][i], k);
          assert data[..n][i] == data[i];
        }
        if i :| 0 <= i < |data| && v in Values(data[i], k) {
          if i < n {
            assert data[..n][i] == data[i];
          }
        }
      }
    }
  }

  predicate StrictlySorted(s: seq<String>) {
    forall i, j :: 0 <= i < j < |s| ==> Less(s[i], s[j])
  }

  /** `sorted(list(s))` for a set of strings. */
  method SortedList(s: set<String>) returns (r: seq<String>)
    ensures StrictlySorted(r)
    ensures forall x :: x in r <==> x in s
  {
    r := [];
    var rest := s;
    while rest != {}
      invariant rest <= s
      invariant forall x :: x in s <==> x in rest || x in r
      invariant forall x :: x in r ==> x !in rest
      invariant StrictlySorted(r)
      invariant forall i, y :: 0 <= i < |r| && y in rest ==> Less(r[i], y)
      decreases |rest|
    {
      LeastExists(rest);
      var m :| m in rest && forall y :: y in rest && y != m ==> Less(m, y);
      r := r + [m];
      rest := rest - {m};
    }
  }

  /** `get_all_topics` (and its two siblings): every value of the column in
      some record, once each, in ascending order. */
  method AllValues(data: seq<Record>, k: TagKind) returns (vals: seq<String>)
    ensures StrictlySorted(vals)
    ensures forall v :: v in vals <==> exists i :: 0 <= i < |data| && v in Values(data[i], k)
  {
    UnionOfSpec(data, k);
    if |data| == 0 {
      return [];
    }
    var seen: set<String> := {};
    for i := 0 to |data|
      invariant seen == UnionOf(data[..i], k)
    {
      assert data[..i + 1][..i] == data[..i];
      seen := seen + SetOf(Values(data[i], k));
    }
    assert data[..|data|] == data;
    vals := SortedList(seen);
  }

  // ---------------------------------------------------------------------
  // filter_classes

  /** The three multiselects; an empty one is no selection. */
  datatype Selection = Selection(topics: seq<String>, industries: seq<String>, products: seq<String>)

  /** `any(t in selected for t in x)` */
  predicate AnyOf(vals: seq<String>, chosen: seq<String>) {
    exists v :: v in vals && v in chosen
  }

  /** A row passes each non-empty selection by having one of its values. */
  predicate Matches(r: Record, sel: Selection) {
    && (|sel.topics| == 0 || AnyOf(Values(r, Topic), sel.topics))
    && (|sel.industries| == 0 || AnyOf(Values(r, Industry), sel.industries))
    && (|sel.products| == 0 || AnyOf(Values(r, Product), sel.products))
  }

  function FilterClasses(data: seq<Record>, sel: Selection): seq<Record> {
    if |data| == 0 then []
    else (if Matches(data[0], sel) then [data[0]] else []) + FilterClasses(data[1..], sel)
  }

  /** The positions of the rows `FilterClasses` keeps. */
  function MatchPositions(data: seq<Record>, sel: Selection): (ps: seq<nat>) {
    if |data| == 0 then []
    else
      var rest := MatchPositions(data[1..], sel);
      var shifted := seq(|rest|, k requires 0 <= k < |rest| => rest[k] + 1);
      if Matches(data[0], sel) then [0] + shifted else shifted
  }

  /** The kept rows are the rows at the listed positions, which increase. */
  lemma {:induction false} FilterClassesOrder(data: seq<Record>, sel: Selection)
    ensures var r, ps := FilterClasses(data, sel), MatchPositions(data, sel);
      && |ps| == |r|
      && (forall k :: 0 <= k < |ps| ==> ps[k] < |data| && r[k] == data[ps[k]])
      && (forall k1, k2 :: 0 <= k1 < k2 < |ps| ==> ps[k1] < ps[k2])
  {
    if |data| > 0 {
      FilterClassesOrder(data[1..], sel);
    }
  }

  /** A position is listed exactly when its row matches. */
  lemma {:induction false} MatchPositionsSpec(data: seq<Record>, sel: Selection)
    ensures forall i :: 0 <= i < |data| ==> (i in MatchPositions(data, sel) <==> Matches(data[i], sel))
  {
    if |data| > 0 {
      MatchPositionsSpec(data[1..], sel);
      var rest := MatchPositions(data[1..], sel);
      var ps := MatchPositions(data, sel);
      var shifted := seq(|rest|, k requires 0 <= k < |rest| => rest[k] + 1);
      assert ps == (if Matches(data[0], sel) then [0] + shifted else shifted);
      forall i | 0 < i < |data| ensures (i in ps <==> Matches(data[i], sel)) {
        assert data[1..][i - 1] == data[i];
        if i - 1 in rest {
          var k :| 0 <= k < |rest| && rest[k] == i - 1;
          assert shifted[k] == i;
        }
        if i in shifted {
          var k :| 0 <= k < |shifted| && shifted[k] == i;
          assert rest[k] == i - 1;
        }
      }
    }
  }

  /** `filter_classes` keeps, in their order, exactly the rows that pass
      every non-empty selection: the rows at the increasing positions where
      a row matches, and no others. */
  lemma FilterClassesSpec(data: seq<Record>, sel: Selection)
    ensures var r, ps := FilterClasses(data, sel), MatchPositions(data, sel);
      && |ps| == |r|
      && (forall k :: 0 <= k < |ps| ==> ps[k] < |data| && r[k] == data[ps[k]])
      && (forall k1, k2 :: 0 <= k1 < k2 < |ps| ==> ps[k1] < ps[k2])
      && (forall i :: 0 <= i < |data| ==> (i in ps <==> Matches(data[i], sel)))
  {
    FilterClassesOrder(data, sel);
    MatchPositionsSpec(data, sel);
  }

  /** With no selection, nothing is filtered out. */
  lemma {:induction false} FilterNoSelection(data: seq<Record>)
    ensures FilterClasses(data, Selection([], [], [])) == data
  {
    if |data| > 0 {
      FilterNoSelection(data[1..]);
      assert Matches(data[0], Selection([], [], []));
      assert data == [data[0]] + data[1..];
    }
  }

  // ---------------------------------------------------------------------
  // summarize_trends

  /** Characters beyond ASCII that `\w` does not match: the C1 controls,
      the Latin-1 signs and punctuation (`\xa0` to `\xb1`, `\xb4`, `\xb6`
      to `\xb8`, `\xbb`, `\xbf`, `\xd7`, `\xf7`), the General Punctuation
      block (dashes, curly quotes, bullets, ellipsis), the currency signs,
      the trade mark sign and Unicode whitespace. */
  predicate NonWordBeyondAscii(c: char) {
    || '\U{0080}' <= c <= '\U{00A9}'
    || '\U{00AB}' <= c <= '\U{00B1}'
    || c == '\U{00B4}' || '\U{00B6}' <= c <= '\U{00B8}' || c == '\U{00BB}' || c == '\U{00BF}'
    || c == '\U{00D7}' || c == '\U{00F7}'
    || '\U{2000}' <= c <= '\U{206F}'
    || '\U{20A0}' <= c <= '\U{20CF}'
    || c == '\U{2122}'
    || IsSpace(c)
  }

  /** A character `\w` matches: ASCII letters, digits and `_`, and the
      characters beyond ASCII not excluded above (taken as Unicode letters
      and digits). */
  predicate WordChar(c: char) {
    || 'a' <= c <= 'z' || 'A' <= c <= 'Z' || '0' <= c <= '9' || c == '_'
    || (c as int > 127 && !NonWordBeyondAscii(c))
  }

  predicate AllLower(w: String) {
    forall k :: 0 <= k < |w| ==> 'a' <= w[k] <= 'z'
  }

  /** A word-character run is a match of `\b[a-z]{3,}\b` when it is made of
      at least three lower-case letters. */
  function Emit(run: String): seq<String> {
    if |run| >= 3 && AllLower(run) then [run] else []
  }

  function TokensFrom(s: String, run: String): seq<String> {
    if |s| == 0 then Emit(run)
    else if WordChar(s[0]) then TokensFrom(s[1..], run + [s[0]])
    else Emit(run) + TokensFrom(s[1..], [])
  }

  /** `re.findall(r'\b[a-z]{3,}\b', s)`: the maximal word-character runs of
      `s` that consist of three or more lower-case ASCII letters. */
  function Tokens(s: String): seq<String> {
    TokensFrom(s, [])
  }

  lemma {:induction false} TokensFromSpec(s: String, run: String)
    ensures forall w :: w in TokensFrom(s, run) ==> |w| >= 3 && AllLower(w)
  {
    if |s| > 0 {
      if WordChar(s[0]) {
        TokensFromSpec(s[1..], run + [s[0]]);
      } else {
        TokensFromSpec(s[1..], []);
      }
    }
  }

  /** Every token is a word of at least three lower-case letters. */
  lemma TokensSpec(s: String)
    ensures forall w :: w in Tokens(s) ==> |w| >= 3 && AllLower(w)
  {
    TokensFromSpec(s, []);
  }

  /** A curly apostrophe ends a word, as in `re.findall`: `abc’s` yields
      `abc`. */
  lemma TokensAtApostrophe()
    ensures Tokens("abc\U{2019}s") == ["abc"]
  {
    assert AllLower("abc");
    assert TokensFrom("", "s") == [];
    assert "s"[1..] == "" && [] + ['s'] == "s";
    assert TokensFrom("s", []) == [];
    assert TokensFrom("\U{2019}s", "abc") == ["abc"];
    assert "c\U{2019}s"[1..] == "\U{2019}s" && "ab" + ['c'] == "abc";
    assert TokensFrom("c\U{2019}s", "ab") == ["abc"];
    assert "bc\U{2019}s"[1..] == "c\U{2019}s" && "a" + ['b'] == "ab";
    assert TokensFrom("bc\U{2019}s", "a") == ["abc"];
    assert "abc\U{2019}s"[1..] == "bc\U{2019}s" && [] + ['a'] == "a";
  }


  /** The stopwords of `summarize_trends`. */
  const TrendStopwords: set<String> := {
    "the", "and", "to", "of", "in", "a", "for", "with", "on", "is", "how",
    "this", "that", "it", "are", "from", "by", "an", "be", "as", "will", "can", "your", "we",
    "at", "or", "you", "use", "using", "used", "not", "but", "all", "into", "their", "our",
    "new", "more", "what", "why", "when", "up", "out", "do", "so", "which",
    "english", "deutsch", "español", "français", "한국어", "日本語",
    "简体中文", "português", "italiano", "russian", "polish", "turkish", "czech", "arabic"}

  /** `[w for w in words if w not in stop]` */
  function Clean(words: seq<String>, stop: set<String>): (r: seq<String>)
    ensures forall w :: w in r ==> w in words && w !in stop
  {
    if |words| == 0 then []
    else (if words[0] in stop then [] else [words[0]]) + Clean(words[1..], stop)
  }

  predicate NoStopwords(ws: seq<String>, stop: set<String>) {
    forall i :: 0 <= i < |ws| ==> ws[i] !in stop
  }

  function Bigram(w1: String, w2: String): String {
    w1 + " " + w2
  }

  function Trigram(w1: String, w2: String, w3: String): String {
    w1 + " " + w2 + " " + w3
  }

  /** The bigram loop over its first `n` steps: a pair is kept when neither
      word is a stopword. */
  function BigramsUpTo(ws: seq<String>, stop: set<String>, n: nat): seq<String>
    requires n < |ws| || n == 0
  {
    if n == 0 then []
    else BigramsUpTo(ws, stop, n - 1) +
         (if ws[n - 1] !in stop && ws[n] !in stop then [Bigram(ws[n - 1], ws[n])] else [])
  }

  function Bigrams(ws: seq<String>, stop: set<String>): seq<String> {
    BigramsUpTo(ws, stop, if |ws| > 0 then |ws| - 1 else 0)
  }

  /** The trigram loop over its first `n` steps: kept when the first and the
      last word are not stopwords (the middle one is not checked). */
  function TrigramsUpTo(ws: seq<String>, stop: set<String>, n: nat): seq<String>
    requires n + 1 < |ws| || n == 0
  {
    if n == 0 then []
    else TrigramsUpTo(ws, stop, n - 1) +
         (if ws[n - 1] !in stop && ws[n + 1] !in stop then [Trigram(ws[n - 1], ws[n], ws[n + 1])] else [])
  }

  function Trigrams(ws: seq<String>, stop: set<String>): seq<String> {
    TrigramsUpTo(ws, stop, if |ws| > 1 then |ws| - 2 else 0)
  }

  lemma {:induction false} BigramsUpToAll(ws: seq<String>, stop: set<String>, n: nat)
    requires n < |ws| || n == 0
    requires NoStopwords(ws, stop)
    ensures |BigramsUpTo(ws, stop, n)| == n
    ensures forall i {:trigger BigramsUpTo(ws, stop, n)[i]} :: 0 <= i < n ==> BigramsUpTo(ws, stop, n)[i] == Bigram(ws[i], ws[i + 1])
  {
    if n > 0 {
      BigramsUpToAll(ws, stop, n - 1);
    }
  }

  lemma {:induction false} TrigramsUpToAll(ws: seq<String>, stop: set<String>, n: nat)
    requires n + 1 < |ws| || n == 0
    requires NoStopwords(ws, stop)
    ensures |TrigramsUpTo(ws, stop, n)| == n
    ensures forall i {:trigger TrigramsUpTo(ws, stop, n)[i]} :: 0 <= i < n ==> TrigramsUpTo(ws, stop, n)[i] == Trigram(ws[i], ws[i + 1], ws[i + 2])
  {
    if n > 0 {
      TrigramsUpToAll(ws, stop, n - 1);
    }
  }

  /** Every adjacent pair of words, in order. */
  function Pairs(ws: seq<String>): (r: seq<String>)
    ensures |r| == (if |ws| > 0 then |ws| - 1 else 0)
    ensures forall i {:trigger r[i]} :: 0 <= i < |r| ==> r[i] == Bigram(ws[i], ws[i + 1])
  {
    if |ws| < 2 then [] else seq(|ws| - 1, i requires 0 <= i < |ws| - 1 => Bigram(ws[i], ws[i + 1]))
  }

  /** Every adjacent triple of words, in order. */
  function Triples(ws: seq<String>): (r: seq<String>)
    ensures |r| == (if |ws| > 1 then |ws| - 2 else 0)
    ensures forall i {:trigger r[i]} :: 0 <= i < |r| ==> r[i] == Trigram(ws[i], ws[i + 1], ws[i + 2])
  {
    if |ws| < 3 then [] else seq(|ws| - 2, i requires 0 <= i < |ws| - 2 => Trigram(ws[i], ws[i + 1], ws[i + 2]))
  }

  /** Over words that hold no stopword the re-checks never fire: the bigrams
      are all `max(0, n-1)` adjacent pairs and the trigrams all `max(0, n-2)`
      adjacent triples, in order. */
  lemma NgramsOfCleanWords(ws: seq<String>, stop: set<String>)
    requires NoStopwords(ws, stop)
    ensures Bigrams(ws, stop) == Pairs(ws)
    ensures Trigrams(ws, stop) == Triples(ws)
  {
    BigramsArePairs(ws, stop);
    TrigramsAreTriples(ws, stop);
  }

  lemma BigramsArePairs(ws: seq<String>, stop: set<String>)
    requires NoStopwords(ws, stop)
    ensures Bigrams(ws, stop) == Pairs(ws)
  {
    var n := if |ws| > 0 then |ws| - 1 else 0;
    BigramsUpToAll(ws, stop, n);
    var b, p := Bigrams(ws, stop), Pairs(ws);
    assert |b| == |p|;
    forall i | 0 <= i < |b| ensures b[i] == p[i] {
    }
  }

  lemma TrigramsAreTriples(ws: seq<String>, stop: set<String>)
    requires NoStopwords(ws, stop)
    ensures Trigrams(ws, stop) == Triples(ws)
  {
    var n := if |ws| > 1 then |ws| - 2 else 0;
    TrigramsUpToAll(ws, stop, n);
    var t, p := Trigrams(ws, stop), Triples(ws);
    assert |t| == |p|;
    forall i | 0 <= i < |t| ensures t[i] == p[i] {
    }
  }

  lemma CleanHasNoStopwords(words: seq<String>, stop: set<String>)
    ensures NoStopwords(Clean(words, stop), stop)
  {
    var c := Clean(words, stop);
    forall i | 0 <= i < |c| ensures c[i] !in stop {
      assert c[i] in c;
    }
  }

  /** `all_topics`: every record's topics, concatenated in order. */
  function AllTopics(data: seq<Record>): seq<String> {
    if |data| == 0 then [] else AllTopics(data[..|data| - 1]) + Values(data[|data| - 1], Topic)
  }

  /** `df['title'].fillna('') + " " + df['summary'].fillna('')`, joined by
      spaces and lower-cased. */
  function TrendCorpus(data: seq<Record>): String {
    Lower(Join(seq(|data|, i requires 0 <= i < |data| => data[i].title + " " + SummaryText(data[i])), " "))
  }

  function TrendWords(data: seq<Record>): seq<String> {
    Clean(Tokens(TrendCorpus(data)), TrendStopwords)
  }

  /** What `summarize_trends` returns: `{}` or the three top lists. */
  datatype Trends =
    | NoTrends
    | Trends(topTopics: seq<(String, nat)>, topPhrases: seq<(String, nat)>, topTrigrams: seq<(String, nat)>)

  /** The three top lists of a non-empty frame, from its topics and its
      cleaned words. */
  function Summarize(topics: seq<String>, ws: seq<String>, stop: set<String>): Trends {
    Trends(MostCommon(topics, 15), MostCommon(Bigrams(ws, stop), 15), MostCommon(Trigrams(ws, stop), 10))
  }

  function SummarizeTrendsOf(data: seq<Record>): Trends {
    if |data| == 0 then NoTrends
    else Summarize(AllTopics(data), TrendWords(data), TrendStopwords)
  }

  /** `most_common(k)` over a counted history: min(k, number of distinct
      values) entries with distinct keys, each a counted value with its true
      count, by non-increasing count, and no value left out counted more
      often than the last entry. */
  predicate TopCounts(r: seq<(String, nat)>, h: seq<String>, k: nat) {
    && |r| == (if k < |Distinct(h)| then k else |Distinct(h)|)
    && (forall i :: 0 <= i < |r| ==> r[i].1 == Count(h, r[i].0) >= 1 && r[i].0 in h)
    && NoDup(Keys(r))
    && (forall i, j :: 0 <= i < j < |r| ==> r[i].1 >= r[j].1)
    && (forall x :: x in h && x !in Keys(r) ==> |r| == k && (k > 0 ==> Count(h, x) <= r[k - 1].1))
  }

  lemma TopCountsOf(h: seq<String>, k: nat)
    ensures TopCounts(MostCommon(h, k), h, k)
  {
    MostCommonSpec(h, k);
  }

  /** Each top list is a `most_common` result of its history. */
  lemma SummarizeCounts(topics: seq<String>, ws: seq<String>, stop: set<String>)
    ensures var t := Summarize(topics, ws, stop);
      && TopCounts(t.topTopics, topics, 15)
      && TopCounts(t.topPhrases, Bigrams(ws, stop), 15)
      && TopCounts(t.topTrigrams, Trigrams(ws, stop), 10)
  {
    TopCountsOf(topics, 15);
    TopCountsOf(Bigrams(ws, stop), 15);
    TopCountsOf(Trigrams(ws, stop), 10);
  }

  /** `summarize_trends`: `{}` exactly for a frame without records; otherwise
      the three top lists of its topics and of its cleaned title-and-summary
      words. */
  lemma SummarizeTrendsSpec(data: seq<Record>)
    ensures SummarizeTrendsOf(data).NoTrends? <==> |data| == 0
    ensures |data| > 0 ==>
      var t, ws := SummarizeTrendsOf(data), TrendWords(data);
      && TopCounts(t.topTopics, AllTopics(data), 15)
      && TopCounts(t.topPhrases, Pairs(ws), 15)
      && TopCounts(t.topTrigrams, Triples(ws), 10)
  {
    if |data| > 0 {
      var ws := TrendWords(data);
      CleanHasNoStopwords(Tokens(TrendCorpus(data)), TrendStopwords);
      NgramsOfCleanWords(ws, TrendStopwords);
      SummarizeCounts(AllTopics(data), ws, TrendStopwords);
    }
  }

  /** The bigram loop of `summarize_trends`. */
  method CollectBigrams(ws: seq<String>, stop: set<String>) returns (bigrams: seq<String>)
    ensures bigrams == Bigrams(ws, stop)
  {
    bigrams := [];
    var n := if |ws| > 0 then |ws| - 1 else 0;
    for i := 0 to n
      invariant bigrams == BigramsUpTo(ws, stop, i)
    {
      var w1, w2 := ws[i], ws[i + 1];
      if w1 !in stop && w2 !in stop {
        bigrams := bigrams + [Bigram(w1, w2)];
      }
    }
  }

  /** The trigram loop of `summarize_trends`. */
  method CollectTrigrams(ws: seq<String>, stop: set<String>) returns (trigrams: seq<String>)
    ensures trigrams == Trigrams(ws, stop)
  {
    trigrams := [];
    var n := if |ws| > 1 then |ws| - 2 else 0;
    for i := 0 to n
      invariant trigrams == TrigramsUpTo(ws, stop, i)
    {
      var w1, w2, w3 := ws[i], ws[i + 1], ws[i + 2];
      if w1 !in stop && w3 !in stop {
        trigrams := trigrams + [Trigram(w1, w2, w3)];
      }
    }
  }

  /** `summarize_trends` */
  method SummarizeTrends(data: seq<Record>) returns (trends: Trends)
    ensures trends == SummarizeTrendsOf(data)
  {
    if |data| == 0 {
      return NoTrends;
    }
    var allTopics := [];
    for i := 0 to |data|
      invariant allTopics == AllTopics(data[..i])
    {
      assert data[..i + 1][..i] == data[..i];
      allTopics := allTopics + Values(data[i], Topic);
    }
    assert data[..|data|] == data;
    var topicCounts := MostCommon(allTopics, 15);
    var cleanWords := TrendWords(data);
    var bigrams := CollectBigrams(cleanWords, TrendStopwords);
    var trigrams := CollectTrigrams(cleanWords, TrendStopwords);
    return Trends(topicCounts, MostCommon(bigrams, 15), MostCommon(trigrams, 10));
  }
}
