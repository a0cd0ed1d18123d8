/** `Analyzer.get_key_themes` (src/analyzer.py): frequent three-word
    concepts of the summaries, and for each the clean sentence with the
    most words that mentions it, as "insights". */
module KeyThemes {
  import opened Text
  import opened Wrappers
  import opened Counting
  import opened ClassPage
  import opened Analyzer

  /** The stopwords of `get_key_themes`. */
  const ThemeStopwords: set<String> := {
    "the", "and", "to", "of", "in", "a", "for", "with", "on", "is", "how",
    "this", "that", "it", "are", "from", "by", "an", "be", "as", "will", "can", "your", "we",
    "class", "session", "learn", "autodesk", "university", "software"}

  const MaxConcepts: nat := 20
  const MaxInsights: nat := 6
  const MinSentence: nat := 40
  const OverlapPenalty: int := 50

  /** Returned when no insight is found. */
  const Fallback: seq<String> := [
    "Industry is focusing on integrating data workflows across phases.",
    "Automation is shifting from simple scripts to complex decision making."]

  /** `" ".join(df['summary'].fillna('')).lower()` */
  function ThemeCorpus(data: seq<Record>): String {
    Lower(Join(seq(|data|, i requires 0 <= i < |data| => SummaryText(data[i])), " "))
  }

  function ThemeWords(data: seq<Record>): seq<String> {
    Clean(Tokens(ThemeCorpus(data)), ThemeStopwords)
  }

  /** `df['summary'].dropna()` */
  function Summaries(data: seq<Record>): seq<String> {
    if |data| == 0 then []
    else Summaries(data[..|data| - 1]) +
         (if data[|data| - 1].summary.Some? then [data[|data| - 1].summary.value] else [])
  }

  /** The n-gram loop over its first `n` steps. */
  function NgramsUpTo(ws: seq<String>, n: nat): seq<String>
    requires n + 2 < |ws| || n == 0
  {
    if n == 0 then [] else NgramsUpTo(ws, n - 1) + [Trigram(ws[n - 1], ws[n], ws[n + 1])]
  }

  /** The concepts: one three-word phrase for each `i in range(len(ws) - 3)`. */
  function Ngrams(ws: seq<String>): seq<String> {
    NgramsUpTo(ws, if |ws| > 3 then |ws| - 3 else 0)
  }

  lemma {:induction false} NgramsUpToAt(ws: seq<String>, n: nat)
    requires n + 2 < |ws| || n == 0
    ensures |NgramsUpTo(ws, n)| == n
    ensures forall k {:trigger NgramsUpTo(ws, n)[k]} :: 0 <= k < n ==> NgramsUpTo(ws, n)[k] == Trigram(ws[k], ws[k + 1], ws[k + 2])
  {
    if n > 0 {
      NgramsUpToAt(ws, n - 1);
    }
  }

  lemma NgramsUpToTriples(ws: seq<String>, n: nat)
    requires n + 2 < |ws| || n == 0
    ensures NgramsUpTo(ws, n) == Triples(ws)[..n]
  {
    NgramsUpToAt(ws, n);
    var g, t := NgramsUpTo(ws, n), Triples(ws)[..n];
    assert |g| == |t|;
    forall k | 0 <= k < n ensures g[k] == t[k] {
    }
  }

  /** The concepts are the adjacent triples of the words except the last one:
      `range(len(ws) - 3)` stops one short, so the final triple is never
      counted. */
  lemma NgramsMissLastTriple(ws: seq<String>)
    ensures |Ngrams(ws)| == (if |ws| > 3 then |ws| - 3 else 0)
    ensures |ws| >= 3 ==> Ngrams(ws) == Triples(ws)[..|ws| - 3]
    ensures |ws| >= 3 ==> Triples(ws)[|ws| - 3] == Trigram(ws[|ws| - 3], ws[|ws| - 2], ws[|ws| - 1])
  {
    NgramsUpToTriples(ws, if |ws| > 3 then |ws| - 3 else 0);
  }

  /** Three clean words make one triple but no concept. */
  lemma ThreeWordsNoConcept()
    ensures Ngrams(["reduce", "carbon", "emissions"]) == []
    ensures |Triples(["reduce", "carbon", "emissions"])| == 1
  {
  }

  // ---------------------------------------------------------------------
  // Choosing a sentence for a concept

  /** A stripped sentence that may represent `concept`: it mentions it (in
      lower case), is no boilerplate, and is at least 40 characters long. */
  predicate Eligible(sent: String, concept: String) {
    var low := Lower(sent);
    Contains(low, concept) && !Contains(low, "this class") && !Contains(low, "join us") && |sent| >= MinSentence
  }

  /** `len(sent.split())`, less 50 when the sentence contains one already chosen. */
  function Quality(sent: String, seen: set<String>): int {
    WordCount(sent) - (if exists s :: s in seen && Contains(sent, s) then OverlapPenalty else 0)
  }

  /** The best sentence so far and its quality (`best_sent`, `max_quality`). */
  datatype Choice = Choice(best: String, quality: int)

  function Consider(sent: String, concept: String, seen: set<String>, ch: Choice): Choice {
    if Eligible(sent, concept) && Quality(sent, seen) > ch.quality then Choice(sent, Quality(sent, seen)) else ch
  }

  /** The sentence loop over the pieces of one summary split at '.'. */
  function PickSentences(parts: seq<String>, concept: String, seen: set<String>, ch: Choice): Choice {
    if |parts| == 0 then ch
    else PickSentences(parts[1..], concept, seen, Consider(Strip(parts[0]), concept, seen, ch))
  }

  /** The summary loop: only summaries that mention the concept are split. */
  function PickSummaries(summaries: seq<String>, concept: String, seen: set<String>, ch: Choice): Choice {
    if |summaries| == 0 then ch
    else
      var ch' := if Contains(Lower(summaries[0]), concept) then PickSentences(Split(summaries[0], '.'), concept, seen, ch) else ch;
      PickSummaries(summaries[1..], concept, seen, ch')
  }

  /** A chosen sentence: eligible, free of '.', and already stripped. */
  predicate Chosen(s: String, concept: String) {
    Eligible(s, concept) && '.' !in s && Strip(s) == s
  }

  predicate ChoiceOk(ch: Choice, concept: String) {
    ch.best == "" || Chosen(ch.best, concept)
  }

  lemma ConsiderOk(part: String, concept: String, seen: set<String>, ch: Choice)
    requires '.' !in part && ChoiceOk(ch, concept)
    ensures ChoiceOk(Consider(Strip(part), concept, seen, ch), concept)
  {
    StripSubset(part);
    StripIdempotent(part);
  }

  lemma {:induction false} PickSentencesOk(parts: seq<String>, concept: String, seen: set<String>, ch: Choice)
    requires forall k :: 0 <= k < |parts| ==> '.' !in parts[k]
    requires ChoiceOk(ch, concept)
    ensures ChoiceOk(PickSentences(parts, concept, seen, ch), concept)
  {
    if |parts| > 0 {
      ConsiderOk(parts[0], concept, seen, ch);
      PickSentencesOk(parts[1..], concept, seen, Consider(Strip(parts[0]), concept, seen, ch));
    }
  }

  /** The sentence chosen for a concept is eligible, holds no '.', and is
      stripped. */
  lemma {:induction false} PickSummariesOk(summaries: seq<String>, concept: String, seen: set<String>, ch: Choice)
    requires ChoiceOk(ch, concept)
    ensures ChoiceOk(PickSummaries(summaries, concept, seen, ch), concept)
  {
    if |summaries| > 0 {
      var ch' := if Contains(Lower(summaries[0]), concept) then PickSentences(Split(summaries[0], '.'), concept, seen, ch) else ch;
      if Contains(Lower(summaries[0]), concept) {
        PickSentencesOk(Split(summaries[0], '.'), concept, seen, ch);
      }
      PickSummariesOk(summaries[1..], concept, seen, ch');
    }
  }

  /** The overlap penalty never applies: a sentence is a piece between '.'
      characters, while every stored insight ends with '.'. */
  lemma NoOverlapPenalty(sent: String, seen: set<String>)
    requires '.' !in sent
    requires forall s :: s in seen ==> EndsWith(s, ".")
    ensures Quality(sent, seen) == WordCount(sent)
  {
    forall s | s in seen ensures !Contains(sent, s) {
      assert s[|s| - 1] == '.';
      NoContainsOfAbsentChar(sent, s, '.');
    }
  }

  /** The stripped pieces the sentence loop looks at for `concept`, in
      order: those of every summary that mentions it. */
  function Pieces(summaries: seq<String>, concept: String): seq<String> {
    if |summaries| == 0 then []
    else
      (if Contains(Lower(summaries[0]), concept) then StripAll(Split(summaries[0], '.')) else []) +
      Pieces(summaries[1..], concept)
  }

  function StripAll(parts: seq<String>): seq<String> {
    if |parts| == 0 then [] else [Strip(parts[0])] + StripAll(parts[1..])
  }

  /** The choice made over a flat list of stripped pieces. */
  function PickAll(ps: seq<String>, concept: String, seen: set<String>, ch: Choice): Choice {
    if |ps| == 0 then ch else PickAll(ps[1..], concept, seen, Consider(ps[0], concept, seen, ch))
  }

  lemma {:induction false} PickAllAppend(ps: seq<String>, qs: seq<String>, concept: String, seen: set<String>, ch: Choice)
    ensures PickAll(ps + qs, concept, seen, ch) == PickAll(qs, concept, seen, PickAll(ps, concept, seen, ch))
  {
    if |ps| == 0 {
      assert ps + qs == qs;
    } else {
      assert (ps + qs)[0] == ps[0] && (ps + qs)[1..] == ps[1..] + qs;
      PickAllAppend(ps[1..], qs, concept, seen, Consider(ps[0], concept, seen, ch));
    }
  }

  lemma {:induction false} PickSentencesAll(parts: seq<String>, concept: String, seen: set<String>, ch: Choice)
    ensures PickSentences(parts, concept, seen, ch) == PickAll(StripAll(parts), concept, seen, ch)
  {
    if |parts| > 0 {
      var ps := StripAll(parts);
      assert ps[0] == Strip(parts[0]) && ps[1..] == StripAll(parts[1..]);
      PickSentencesAll(parts[1..], concept, seen, Consider(Strip(parts[0]), concept, seen, ch));
    }
  }

  /** The summary loop is the choice over the flat list of pieces. */
  lemma {:induction false} PickSummariesAll(summaries: seq<String>, concept: String, seen: set<String>, ch: Choice)
    ensures PickSummaries(summaries, concept, seen, ch) == PickAll(Pieces(summaries, concept), concept, seen, ch)
  {
    if |summaries| > 0 {
      var mentions := Contains(Lower(summaries[0]), concept);
      var first := if mentions then StripAll(Split(summaries[0], '.')) else [];
      var ch' := if mentions then PickSentences(Split(summaries[0], '.'), concept, seen, ch) else ch;
      if mentions {
        PickSentencesAll(Split(summaries[0], '.'), concept, seen, ch);
      }
      assert PickAll(first, concept, seen, ch) == ch';
      PickAllAppend(first, Pieces(summaries[1..], concept), concept, seen, ch);
      PickSummariesAll(summaries[1..], concept, seen, ch');
    }
  }

  /** No eligible piece has a greater quality than the choice over a list,
      which never falls below the start's. */
  lemma {:induction false} PickAllBound(ps: seq<String>, concept: String, seen: set<String>, ch: Choice)
    ensures PickAll(ps, concept, seen, ch).quality >= ch.quality
    ensures forall j :: 0 <= j < |ps| && Eligible(ps[j], concept) ==>
              Quality(ps[j], seen) <= PickAll(ps, concept, seen, ch).quality
  {
    if |ps| > 0 {
      var ch1 := Consider(ps[0], concept, seen, ch);
      var rest := ps[1..];
      PickAllBound(rest, concept, seen, ch1);
      assert PickAll(ps, concept, seen, ch) == PickAll(rest, concept, seen, ch1);
      forall j | 1 <= j < |ps| ensures ps[j] == rest[j - 1] {
      }
    }
  }

  /** Piece `k` is eligible, of a quality above the start's, is the choice
      over the list, and every eligible piece before it has a lower quality. */
  predicate FirstBest(ps: seq<String>, concept: String, seen: set<String>, ch: Choice, k: nat)
    requires k < |ps|
  {
    && Eligible(ps[k], concept) && Quality(ps[k], seen) > ch.quality
    && PickAll(ps, concept, seen, ch) == Choice(ps[k], Quality(ps[k], seen))
    && forall j :: 0 <= j < k && Eligible(ps[j], concept) ==> Quality(ps[j], seen) < Quality(ps[k], seen)
  }

  /** The choice over a list is the start, or the first eligible piece of
      its quality, above the start's. */
  lemma {:induction false} PickAllFirst(ps: seq<String>, concept: String, seen: set<String>, ch: Choice)
    ensures PickAll(ps, concept, seen, ch) == ch ||
            exists k :: 0 <= k < |ps| && FirstBest(ps, concept, seen, ch, k)
  {
    if |ps| > 0 {
      var ch1 := Consider(ps[0], concept, seen, ch);
      var rest := ps[1..];
      var r := PickAll(rest, concept, seen, ch1);
      PickAllFirst(rest, concept, seen, ch1);
      assert PickAll(ps, concept, seen, ch) == r;
      if r != ch {
        var q0 := Quality(ps[0], seen);
        var picked := Eligible(ps[0], concept) && q0 > ch.quality;
        assert ch1 == (if picked then Choice(ps[0], q0) else ch);
        if r == ch1 {
          assert picked;
          assert FirstBest(ps, concept, seen, ch, 0);
        } else {
          var k' :| 0 <= k' < |rest| && FirstBest(rest, concept, seen, ch1, k');
          forall j | 1 <= j < k' + 1 ensures ps[j] == rest[j - 1] {
          }
          assert ps[k' + 1] == rest[k'];
          assert FirstBest(ps, concept, seen, ch, k' + 1);
        }
      }
    }
  }

  lemma {:induction false} StripAllSpec(parts: seq<String>)
    requires forall k :: 0 <= k < |parts| ==> '.' !in parts[k]
    ensures |StripAll(parts)| == |parts|
    ensures forall j :: 0 <= j < |parts| ==> StripAll(parts)[j] == Strip(parts[j]) && '.' !in StripAll(parts)[j]
  {
    if |parts| > 0 {
      StripAllSpec(parts[1..]);
      StripSubset(parts[0]);
      forall j | 1 <= j < |parts| ensures StripAll(parts)[j] == StripAll(parts[1..])[j - 1] {
      }
    }
  }

  /** Every piece is stripped and holds no '.'. */
  lemma {:induction false} PiecesSpec(summaries: seq<String>, concept: String)
    ensures forall j :: 0 <= j < |Pieces(summaries, concept)| ==>
              '.' !in Pieces(summaries, concept)[j] && Strip(Pieces(summaries, concept)[j]) == Pieces(summaries, concept)[j]
  {
    if |summaries| > 0 {
      var first := if Contains(Lower(summaries[0]), concept) then StripAll(Split(summaries[0], '.')) else [];
      var rest := Pieces(summaries[1..], concept);
      PiecesSpec(summaries[1..], concept);
      var parts := Split(summaries[0], '.');
      StripAllSpec(parts);
      forall j | 0 <= j < |first| ensures '.' !in first[j] && Strip(first[j]) == first[j] {
        StripIdempotent(parts[j]);
      }
      assert Pieces(summaries, concept) == first + rest;
      forall j | |first| <= j < |first| + |rest| ensures (first + rest)[j] == rest[j - |first|] {
      }
    }
  }

  /** Piece `k` is eligible, has the most words of all eligible pieces, and
      strictly more than every eligible piece before it. */
  predicate MostWords(ps: seq<String>, concept: String, k: nat)
    requires k < |ps|
  {
    && Eligible(ps[k], concept)
    && (forall j :: 0 <= j < |ps| && Eligible(ps[j], concept) ==> WordCount(ps[j]) <= WordCount(ps[k]))
    && (forall j :: 0 <= j < k && Eligible(ps[j], concept) ==> WordCount(ps[j]) < WordCount(ps[k]))
  }

  /** An eligible piece has at least one word, and, while every seen
      sentence ends with '.', its quality is its word count. */
  lemma EligibleQuality(p: String, concept: String, seen: set<String>)
    requires '.' !in p && Strip(p) == p && Eligible(p, concept)
    requires forall s :: s in seen ==> EndsWith(s, ".")
    ensures Quality(p, seen) == WordCount(p) >= 1
  {
    NoOverlapPenalty(p, seen);
    StripSpec(p);
    WordCountPositive(p);
  }

  /** The sentence loop keeps the eligible piece with the most words, the
      first one on ties, and finds nothing exactly when no piece of a
      summary that mentions the concept is eligible. */
  lemma PickSummariesBest(summaries: seq<String>, concept: String, seen: set<String>)
    requires forall s :: s in seen ==> EndsWith(s, ".")
    ensures PickSummaries(summaries, concept, seen, Choice("", 0)).best == "" <==>
              forall j :: 0 <= j < |Pieces(summaries, concept)| ==> !Eligible(Pieces(summaries, concept)[j], concept)
    ensures PickSummaries(summaries, concept, seen, Choice("", 0)).best != "" ==>
              exists k :: 0 <= k < |Pieces(summaries, concept)| &&
                Pieces(summaries, concept)[k] == PickSummaries(summaries, concept, seen, Choice("", 0)).best &&
                MostWords(Pieces(summaries, concept), concept, k)
  {
    var ps, start := Pieces(summaries, concept), Choice("", 0);
    var r := PickSummaries(summaries, concept, seen, start);
    PickSummariesAll(summaries, concept, seen, start);
    PickAllBound(ps, concept, seen, start);
    PickAllFirst(ps, concept, seen, start);
    PiecesSpec(summaries, concept);
    forall j | 0 <= j < |ps| && Eligible(ps[j], concept) ensures Quality(ps[j], seen) == WordCount(ps[j]) >= 1 {
      EligibleQuality(ps[j], concept, seen);
    }
    if r != start {
      var k :| 0 <= k < |ps| && FirstBest(ps, concept, seen, start, k);
      assert |r.best| >= MinSentence;
      assert MostWords(ps, concept, k);
    }
  }

  // ---------------------------------------------------------------------
  // Insights

  /** `clean_sent`: stripped, '.' appended unless present, first letter upper-cased. */
  function Polish(best: String): (r: String)
    ensures |r| > 0
  {
    var s := Strip(best);
    Capitalize(if EndsWith(s, ".") then s else s + ".")
  }

  /** One step of the concept loop: `(insights, seen_sentences)`. */
  datatype Themes = Themes(insights: seq<String>, seen: set<String>)

  function AddConcept(concept: String, summaries: seq<String>, st: Themes): Themes {
    var ch := PickSummaries(summaries, concept, st.seen, Choice("", 0));
    if ch.best != "" && ch.best !in st.seen then
      Themes(st.insights + [Polish(ch.best)], st.seen + {Polish(ch.best)})
    else st
  }

  /** The concept loop: skips concepts seen fewer than twice and stops once
      six insights are collected. */
  function ThemesFrom(concepts: seq<(String, nat)>, summaries: seq<String>, st: Themes): Themes {
    if |concepts| == 0 then st
    else if concepts[0].1 < 2 then ThemesFrom(concepts[1..], summaries, st)
    else
      var st' := AddConcept(concepts[0].0, summaries, st);
      if |st'.insights| >= MaxInsights then st' else ThemesFrom(concepts[1..], summaries, st')
  }

  function Concepts(data: seq<Record>): seq<(String, nat)> {
    MostCommon(Ngrams(ThemeWords(data)), MaxConcepts)
  }

  function KeyThemesOf(data: seq<Record>): seq<String> {
    if |data| == 0 then []
    else
      var insights := ThemesFrom(Concepts(data), Summaries(data), Themes([], {})).insights;
      if |insights| == 0 then Fallback else insights
  }

  /** What every insight is: it ends with '.', has more than 40 characters,
      mentions in lower case a concept counted at least twice, and holds
      neither "this class" nor "join us" in lower case. */
  ghost predicate Insight(s: String, concepts: seq<(String, nat)>) {
    && EndsWith(s, ".")
    && |s| >= MinSentence + 1
    && !Contains(Lower(s), "this class")
    && !Contains(Lower(s), "join us")
    && exists k :: 0 <= k < |concepts| && concepts[k].1 >= 2 && Contains(Lower(s), concepts[k].0)
  }

  /** Polishing a chosen sentence appends '.' and keeps it eligible. */
  lemma PolishChosen(best: String, concept: String)
    requires Chosen(best, concept)
    ensures Polish(best) == Capitalize(best + ".")
    ensures Lower(Polish(best)) == Lower(best) + "."
    ensures EndsWith(Polish(best), ".") && |Polish(best)| == |best| + 1
    ensures Contains(Lower(Polish(best)), concept)
    ensures !Contains(Lower(Polish(best)), "this class") && !Contains(Lower(Polish(best)), "join us")
  {
    assert !EndsWith(best, ".") by {
      if |best| > 0 {
        assert best[|best| - 1] in best;
      }
    }
    LowerCapitalize(best + ".");
    LowerAppendDot(best);
    ContainsExtend(Lower(best), concept, ".");
    ContainsAppendDot(Lower(best), "this class");
    ContainsAppendDot(Lower(best), "join us");
  }

  /** The loop invariant of the concept loop: every insight so far is one,
      there are at most six, and the set of seen sentences is the set of
      insights. */
  ghost predicate ThemesOk(st: Themes, concepts: seq<(String, nat)>) {
    && |st.insights| <= MaxInsights
    && (forall i :: 0 <= i < |st.insights| ==> Insight(st.insights[i], concepts))
    && (forall s :: s in st.seen <==> s in st.insights)
  }

  /** Adding the sentence chosen for the concept `all[k]` keeps the invariant. */
  lemma AddConceptOk(all: seq<(String, nat)>, k: nat, summaries: seq<String>, st: Themes)
    requires k < |all| && all[k].1 >= 2
    requires ThemesOk(st, all) && |st.insights| < MaxInsights
    ensures ThemesOk(AddConcept(all[k].0, summaries, st), all)
  {
    var concept := all[k].0;
    var ch := PickSummaries(summaries, concept, st.seen, Choice("", 0));
    PickSummariesOk(summaries, concept, st.seen, Choice("", 0));
    if ch.best != "" && ch.best !in st.seen {
      PolishChosen(ch.best, concept);
      assert Insight(Polish(ch.best), all);
    }
  }

  lemma {:induction false} ThemesFromOk(concepts: seq<(String, nat)>, summaries: seq<String>, st: Themes, all: seq<(String, nat)>)
    requires |st.insights| < MaxInsights
    requires |concepts| <= |all| && concepts == all[|all| - |concepts|..]
    requires ThemesOk(st, all)
    ensures ThemesOk(ThemesFrom(concepts, summaries, st), all)
  {
    if |concepts| > 0 {
      var k := |all| - |concepts|;
      assert concepts[1..] == all[k + 1..];
      assert concepts[0] == all[k];
      if concepts[0].1 >= 2 {
        var st' := AddConcept(concepts[0].0, summaries, st);
        AddConceptOk(all, k, summaries, st);
        if |st'.insights| < MaxInsights {
          ThemesFromOk(concepts[1..], summaries, st', all);
        }
      } else {
        ThemesFromOk(concepts[1..], summaries, st, all);
      }
    }
  }

  /** `get_key_themes`: `[]` for no records; the two fixed sentences when no
      insight is found; otherwise at most six insights, each ending with '.',
      longer than 40 characters, free of "this class" and "join us", and
      mentioning a concept that occurs at least twice. */
  lemma KeyThemesSpec(data: seq<Record>)
    ensures |data| == 0 ==> KeyThemesOf(data) == []
    ensures |data| > 0 ==>
      var found := ThemesFrom(Concepts(data), Summaries(data), Themes([], {})).insights;
      && (found == [] ==> KeyThemesOf(data) == Fallback)
      && (found != [] ==>
            && KeyThemesOf(data) == found
            && |found| <= MaxInsights
            && forall i :: 0 <= i < |found| ==> Insight(found[i], Concepts(data)))
  {
    if |data| > 0 {
      var cs := Concepts(data);
      assert cs[|cs| - |cs|..] == cs;
      ThemesFromOk(cs, Summaries(data), Themes([], {}), cs);
    }
  }

  /** Since the set of seen sentences holds only insights, which end with
      '.', and a chosen sentence holds no '.', the `not in seen_sentences`
      test never rejects one. */
  lemma ChosenNeverSeen(best: String, concept: String, st: Themes, concepts: seq<(String, nat)>)
    requires Chosen(best, concept) && ThemesOk(st, concepts)
    ensures best !in st.seen
    ensures Quality(best, st.seen) == WordCount(best)
  {
    forall s | s in st.seen ensures EndsWith(s, ".") && s != best {
      var i :| 0 <= i < |st.insights| && st.insights[i] == s;
      assert s[|s| - 1] in s;
    }
    NoOverlapPenalty(best, st.seen);
  }

  lemma NotSeen(best: String, seen: set<String>)
    requires '.' !in best
    requires forall s :: s in seen ==> EndsWith(s, ".")
    ensures best !in seen
  {
    forall s | s in seen ensures s != best {
      assert s[|s| - 1] == '.';
    }
  }

  /** One step of the concept loop adds nothing when no piece of a summary
      that mentions the concept is eligible. */
  lemma AddConceptNone(concept: String, summaries: seq<String>, st: Themes)
    requires forall s :: s in st.seen ==> EndsWith(s, ".")
    ensures (forall j :: 0 <= j < |Pieces(summaries, concept)| ==> !Eligible(Pieces(summaries, concept)[j], concept)) ==>
              AddConcept(concept, summaries, st) == st
  {
    var ch := PickSummaries(summaries, concept, st.seen, Choice("", 0));
    PickSummariesBest(summaries, concept, st.seen);
    if ch.best == "" {
      assert AddConcept(concept, summaries, st) == st;
    }
  }

  /** Otherwise it adds the polished eligible piece with the most words,
      the first one on ties. */
  lemma AddConceptBest(concept: String, summaries: seq<String>, st: Themes)
    requires forall s :: s in st.seen ==> EndsWith(s, ".")
    ensures (exists j :: 0 <= j < |Pieces(summaries, concept)| && Eligible(Pieces(summaries, concept)[j], concept)) ==>
              exists k :: 0 <= k < |Pieces(summaries, concept)| && MostWords(Pieces(summaries, concept), concept, k) &&
                AddConcept(concept, summaries, st) ==
                  Themes(st.insights + [Polish(Pieces(summaries, concept)[k])], st.seen + {Polish(Pieces(summaries, concept)[k])})
  {
    var ps := Pieces(summaries, concept);
    var ch := PickSummaries(summaries, concept, st.seen, Choice("", 0));
    PickSummariesBest(summaries, concept, st.seen);
    if ch.best != "" {
      PickSummariesOk(summaries, concept, st.seen, Choice("", 0));
      NotSeen(ch.best, st.seen);
      var k :| 0 <= k < |ps| && ps[k] == ch.best && MostWords(ps, concept, k);
      assert AddConcept(concept, summaries, st) == Themes(st.insights + [Polish(ps[k])], st.seen + {Polish(ps[k])});
    }
  }

  /** The concept loop's invariant keeps every seen sentence ending with '.',
      which the two lemmas above need. */
  lemma SeenEndWithDot(st: Themes, concepts: seq<(String, nat)>)
    requires ThemesOk(st, concepts)
    ensures forall s :: s in st.seen ==> EndsWith(s, ".")
  {
    forall s | s in st.seen ensures EndsWith(s, ".") {
      var i :| 0 <= i < |st.insights| && st.insights[i] == s;
    }
  }


  /** Hence a concept that finds a sentence always adds it, even when an
      earlier concept already added the same insight: insights can repeat. */
  lemma AddConceptAlwaysAdds(concept: String, summaries: seq<String>, st: Themes, concepts: seq<(String, nat)>)
    requires ThemesOk(st, concepts)
    ensures var ch := PickSummaries(summaries, concept, st.seen, Choice("", 0));
      ch.best != "" ==> AddConcept(concept, summaries, st).insights == st.insights + [Polish(ch.best)]
  {
    var ch := PickSummaries(summaries, concept, st.seen, Choice("", 0));
    PickSummariesOk(summaries, concept, st.seen, Choice("", 0));
    if ch.best != "" {
      ChosenNeverSeen(ch.best, concept, st, concepts);
    }
  }

  // ---------------------------------------------------------------------
  // The method, loop by loop

  method BuildNgrams(ws: seq<String>) returns (ngrams: seq<String>)
    ensures ngrams == Ngrams(ws)
  {
    ngrams := [];
    var n := if |ws| > 3 then |ws| - 3 else 0;
    for i := 0 to n
      invariant ngrams == NgramsUpTo(ws, i)
    {
      var phrase := Trigram(ws[i], ws[i + 1], ws[i + 2]);
      ngrams := ngrams + [phrase];
    }
  }

  /** The sentence loop for one summary. */
  method ScanSentences(summary: String, concept: String, seen: set<String>, ch0: Choice) returns (ch: Choice)
    ensures ch == PickSentences(Split(summary, '.'), concept, seen, ch0)
  {
    var sentences := Split(summary, '.');
    ch := ch0;
    var i := 0;
    while i < |sentences|
      invariant 0 <= i <= |sentences|
      invariant PickSentences(sentences[i..], concept, seen, ch) == PickSentences(sentences, concept, seen, ch0)
    {
      var sent := Strip(sentences[i]);
      var sentLower := Lower(sent);
      assert sentences[i..][1..] == sentences[i + 1..];
      var next := ch;
      if Contains(sentLower, concept) {
        if Contains(sentLower, "this class") || Contains(sentLower, "join us") {
        } else if |sent| < MinSentence {
        } else {
          var qualityScore := WordCount(sent);
          if exists s :: s in seen && Contains(sent, s) {
            qualityScore := qualityScore - OverlapPenalty;
          }
          assert qualityScore == Quality(sent, seen);
          if qualityScore > ch.quality {
            next := Choice(sent, qualityScore);
          }
        }
      }
      assert next == Consider(sent, concept, seen, ch);
      ch := next;
      i := i + 1;
    }
  }

  /** The summary loop for one concept. */
  method BestSentence(summaries: seq<String>, concept: String, seen: set<String>) returns (ch: Choice)
    ensures ch == PickSummaries(summaries, concept, seen, Choice("", 0))
  {
    ch := Choice("", 0);
    var i := 0;
    while i < |summaries|
      invariant 0 <= i <= |summaries|
      invariant PickSummaries(summaries[i..], concept, seen, ch) == PickSummaries(summaries, concept, seen, Choice("", 0))
    {
      assert summaries[i..][1..] == summaries[i + 1..];
      if Contains(Lower(summaries[i]), concept) {
        ch := ScanSentences(summaries[i], concept, seen, ch);
      }
      i := i + 1;
    }
  }

  /** The concept loop. */
  method CollectThemes(conceptCounts: seq<(String, nat)>, summaries: seq<String>) returns (insights: seq<String>)
    ensures insights == ThemesFrom(conceptCounts, summaries, Themes([], {})).insights
  {
    insights := [];
    var seen: set<String> := {};
    var i := 0;
    while i < |conceptCounts|
      invariant 0 <= i <= |conceptCounts|
      invariant ThemesFrom(conceptCounts[i..], summaries, Themes(insights, seen)) ==
                ThemesFrom(conceptCounts, summaries, Themes([], {}))
    {
      var (concept, count) := conceptCounts[i];
      assert conceptCounts[i..][1..] == conceptCounts[i + 1..];
      if count < 2 {
        i := i + 1;
        continue;
      }
      ghost var before := Themes(insights, seen);
      var ch := BestSentence(summaries, concept, seen);
      if ch.best != "" && ch.best !in seen {
        var cleanSent := Strip(ch.best);
        if !EndsWith(cleanSent, ".") {
          cleanSent := cleanSent + ".";
        }
        cleanSent := Capitalize(cleanSent);
        assert cleanSent == Polish(ch.best);
        insights := insights + [cleanSent];
        seen := seen + {cleanSent};
      }
      assert Themes(insights, seen) == AddConcept(concept, summaries, before);
      if |insights| >= MaxInsights {
        assert ThemesFrom(conceptCounts[i..], summaries, before) == Themes(insights, seen);
        break;
      }
      i := i + 1;
    }
  }

  /** `get_key_themes` */
  method GetKeyThemes(data: seq<Record>) returns (insights: seq<String>)
    ensures insights == KeyThemesOf(data)
  {
    if |data| == 0 {
      return [];
    }
    var ngrams := BuildNgrams(ThemeWords(data));
    var conceptCounts := MostCommon(ngrams, MaxConcepts);
    var summaries := Summaries(data);
    insights := CollectThemes(conceptCounts, summaries);
    if |insights| == 0 {
      insights := Fallback;
    }
  }
}
