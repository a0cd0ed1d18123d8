/** `Recommender` (src/recommender.py): scores five fixed market trends
    against the top topics and phrases of `summarize_trends`, and proposes
    research directions for a pair of topics. */
module Recommender {
  import opened Text
  import opened Counting
  import opened ClassPage
  import opened Analyzer

  /** One entry of `external_signals`: a macro trend, the keywords that
      signal it, its prediction and its three directions. */
  datatype Signal = Signal(trend: String, keywords: seq<String>, prediction: String, directions: seq<String>)

  /** `external_signals`, in declaration order (the order of `.items()`). */
  const Signals: seq<Signal> := [
    Signal("Agentic AI & Automation",
      ["ai", "automation", "generative", "agent", "machine learning", "neural"],
      "AI is moving from 'passive assistant' to 'autonomous agent'.",
      ["Investigating 'Agentic AI' for autonomous construction scheduling adjustments.",
       "Developing proprietary Generative Design scripts (Dynamo/Python) for layout optimization.",
       "Implementing AI-based risk detection from project daily logs."]),
    Signal("Connected Data Ecosystems",
      ["cloud", "platform", "connected", "data", "api", "lake", "exchange"],
      "The shifted focus from 'Files' to 'Granular Data' APIs.",
      ["Building a 'Data Lake' strategy: Extracting unlocked data from Revit/ACC.",
       "Connecting BIM directly to ERP/Procurement systems via Autodesk Platform Services (APS).",
       "Standardizing data schemas for seamless Project-to-O&M handover."]),
    Signal("Digital Twins & Reality Capture",
      ["twin", "reality", "capture", "lidar", "iot", "sensor", "tandem"],
      "Digital Twins are becoming the standard deliverable for high-value assets.",
      ["Integrating real-time IoT sensor data into BIM models for facilities management.",
       "Using drones/LiDAR for automated weekly progress validation against the model.",
       "Simulating operational energy performance using the digital twin."]),
    Signal("Sustainability & Decarbonization",
      ["sustainability", "carbon", "green", "energy", "embodied", "circular"],
      "Carbon Intelligence is becoming a non-negotiable compliance requirement.",
      ["Automating embodied carbon calculation (EC3) during the design phase.",
       "Tracking 'Green Building' certification metrics in real-time dashboards.",
       "Exploring circular economy workflows: Material passports for assets."]),
    Signal("Industrialized Construction",
      ["modular", "offsite", "prefab", "manufacturing", "dfma"],
      "Convergence of manufacturing (DfMA) and construction workflows.",
      ["Aligning Revit families with manufacturer constraints for seamless prefabrication.",
       "Implementing distinct 'Design for Manufacturing' (DfMA) stages in the BIM execution plan.",
       "Tracking offsite component status in the main construction schedule."])]

  const BaselineBoost: nat := 10
  const TopicWeight: nat := 3
  const Opportunity: String := "Strategic Opportunity"

  /** One suggestion: `trend`, `score`, `type`, `reason`, `prediction`, `guide`. */
  datatype Suggestion = Suggestion(trend: String, score: int, kind: String, reason: String, prediction: String, guide: seq<String>)

  // ---------------------------------------------------------------------
  // dict(top_phrases)

  /** `d[k] = v` on a dictionary kept as its items in insertion order. */
  function SetItem(d: seq<(String, nat)>, k: String, v: nat): seq<(String, nat)> {
    if |d| == 0 then [(k, v)]
    else if d[0].0 == k then [(k, v)] + d[1..]
    else [d[0]] + SetItem(d[1..], k, v)
  }

  /** `dict(pairs)`: later pairs overwrite earlier ones with the same key. */
  function DictOf(pairs: seq<(String, nat)>): seq<(String, nat)> {
    if |pairs| == 0 then []
    else SetItem(DictOf(pairs[..|pairs| - 1]), pairs[|pairs| - 1].0, pairs[|pairs| - 1].1)
  }

  lemma {:induction false} SetItemFresh(d: seq<(String, nat)>, k: String, v: nat)
    requires forall i :: 0 <= i < |d| ==> d[i].0 != k
    ensures SetItem(d, k, v) == d + [(k, v)]
  {
    if |d| > 0 {
      assert forall i :: 0 <= i < |d| - 1 ==> d[1..][i] == d[i + 1];
      SetItemFresh(d[1..], k, v);
    }
  }

  /** A list of pairs with distinct keys, such as a `most_common` result,
      is its own dictionary, in the same order. */
  lemma {:induction false} DictOfDistinct(pairs: seq<(String, nat)>)
    requires NoDup(Keys(pairs))
    ensures DictOf(pairs) == pairs
  {
    if |pairs| > 0 {
      var n := |pairs| - 1;
      var p := pairs[..n];
      assert NoDup(Keys(p)) by {
        forall i, j | 0 <= i < j < |p| ensures Keys(p)[i] != Keys(p)[j] {
          assert Keys(pairs)[i] != Keys(pairs)[j];
        }
      }
      DictOfDistinct(p);
      forall i | 0 <= i < |p| ensures p[i].0 != pairs[n].0 {
        assert Keys(pairs)[i] != Keys(pairs)[n];
      }
      SetItemFresh(p, pairs[n].0, pairs[n].1);
      assert pairs == p + [pairs[n]];
    }
  }

  // ---------------------------------------------------------------------
  // Scores

  /** `any(k in text.lower() for k in keywords)` */
  predicate Mentions(text: String, keywords: seq<String>) {
    exists k :: 0 <= k < |keywords| && Contains(Lower(text), keywords[k])
  }

  /** The phrase loop: the counts of the phrases that mention a keyword. */
  function PhraseScore(phrases: seq<(String, nat)>, keywords: seq<String>): nat {
    if |phrases| == 0 then 0
    else
      var last := phrases[|phrases| - 1];
      PhraseScore(phrases[..|phrases| - 1], keywords) + (if Mentions(last.0, keywords) then last.1 else 0)
  }

  /** The topic loop: three times the counts of the topics that mention a keyword. */
  function TopicScore(topics: seq<(String, nat)>, keywords: seq<String>): nat {
    if |topics| == 0 then 0
    else
      var last := topics[|topics| - 1];
      TopicScore(topics[..|topics| - 1], keywords) + (if Mentions(last.0, keywords) then TopicWeight * last.1 else 0)
  }

  /** The phrase sum is positive exactly when some phrase with a positive
      count mentions a keyword. */
  lemma {:induction false} PhraseScorePositive(phrases: seq<(String, nat)>, keywords: seq<String>)
    ensures PhraseScore(phrases, keywords) > 0 <==>
      exists i :: 0 <= i < |phrases| && phrases[i].1 > 0 && Mentions(phrases[i].0, keywords)
  {
    if |phrases| > 0 {
      var n := |phrases| - 1;
      PhraseScorePositive(phrases[..n], keywords);
      if exists i :: 0 <= i < n && phrases[..n][i].1 > 0 && Mentions(phrases[..n][i].0, keywords) {
        var i :| 0 <= i < n && phrases[..n][i].1 > 0 && Mentions(phrases[..n][i].0, keywords);
        assert phrases[i] == phrases[..n][i];
      }
      if exists i :: 0 <= i < |phrases| && phrases[i].1 > 0 && Mentions(phrases[i].0, keywords) {
        var i :| 0 <= i < |phrases| && phrases[i].1 > 0 && Mentions(phrases[i].0, keywords);
        if i < n {
          assert phrases[..n][i] == phrases[i];
        }
      }
    }
  }

  /** The topic sum is positive exactly when some topic with a positive
      count mentions a keyword. */
  lemma {:induction false} TopicScorePositive(topics: seq<(String, nat)>, keywords: seq<String>)
    ensures TopicScore(topics, keywords) > 0 <==>
      exists i :: 0 <= i < |topics| && topics[i].1 > 0 && Mentions(topics[i].0, keywords)
  {
    if |topics| > 0 {
      var n := |topics| - 1;
      TopicScorePositive(topics[..n], keywords);
      if exists i :: 0 <= i < n && topics[..n][i].1 > 0 && Mentions(topics[..n][i].0, keywords) {
        var i :| 0 <= i < n && topics[..n][i].1 > 0 && Mentions(topics[..n][i].0, keywords);
        assert topics[i] == topics[..n][i];
      }
      if exists i :: 0 <= i < |topics| && topics[i].1 > 0 && Mentions(topics[i].0, keywords) {
        var i :| 0 <= i < |topics| && topics[i].1 > 0 && Mentions(topics[i].0, keywords);
        if i < n {
          assert topics[..n][i] == topics[i];
        }
      }
    }
  }

  /** `internal_score` of one signal. */
  function InternalScore(topTopics: seq<(String, nat)>, topPhrases: seq<(String, nat)>, sig: Signal): nat {
    PhraseScore(DictOf(topPhrases), sig.keywords) + TopicScore(topTopics, sig.keywords)
  }

  function Reason(internal: nat, trend: String): String {
    "Found " + NatToString(internal) + " relevant signals in current class data matching global '" + trend + "' trends."
  }

  /** The suggestion for a signal whose internal score is positive. */
  function MakeSuggestion(sig: Signal, internal: nat): Suggestion {
    Suggestion(sig.trend, internal + BaselineBoost, Opportunity, Reason(internal, sig.trend), sig.prediction, sig.directions)
  }

  /** The signal loop over the given signals, in order. */
  function Candidates(topTopics: seq<(String, nat)>, topPhrases: seq<(String, nat)>, sigs: seq<Signal>): seq<Suggestion> {
    if |sigs| == 0 then []
    else
      var n := |sigs| - 1;
      var internal := InternalScore(topTopics, topPhrases, sigs[n]);
      Candidates(topTopics, topPhrases, sigs[..n]) + (if internal > 0 then [MakeSuggestion(sigs[n], internal)] else [])
  }

  function Score(s: Suggestion): int {
    s.score
  }

  /** The candidates sorted by descending score, stably. */
  function Ranked(topTopics: seq<(String, nat)>, topPhrases: seq<(String, nat)>, sigs: seq<Signal>): seq<Suggestion> {
    SortDesc(Candidates(topTopics, topPhrases, sigs), Score)
  }

  /** The suggestions for a table of signals. */
  function SuggestionsFrom(trends: Trends, sigs: seq<Signal>): seq<Suggestion> {
    if trends.NoTrends? then [] else Ranked(trends.topTopics, trends.topPhrases, sigs)
  }

  /** `suggest_future_topics` given the result of `summarize_trends`. */
  function SuggestionsOf(trends: Trends): seq<Suggestion> {
    SuggestionsFrom(trends, Signals)
  }

  // ---------------------------------------------------------------------
  // Properties

  /** The position of a trend name among the given signals (`|sigs|` if absent). */
  function TrendIndex(sigs: seq<Signal>, trend: String): (i: nat)
    ensures i <= |sigs|
    ensures i < |sigs| ==> sigs[i].trend == trend
    ensures forall j :: 0 <= j < i ==> sigs[j].trend != trend
  {
    if |sigs| == 0 then 0
    else if sigs[0].trend == trend then 0
    else 1 + TrendIndex(sigs[1..], trend)
  }

  predicate DistinctTrends(sigs: seq<Signal>) {
    forall i, j :: 0 <= i < j < |sigs| ==> sigs[i].trend != sigs[j].trend
  }

  /** Distinct trend names, three directions each. */
  predicate WellFormed(sigs: seq<Signal>) {
    DistinctTrends(sigs) && forall j :: 0 <= j < |sigs| ==> |sigs[j].directions| == 3
  }

  lemma SignalsWellFormed()
    ensures |Signals| == 5 && WellFormed(Signals)
  {
    SignalTrendsDistinct();
  }

  /** The five trend names start with five different letters. */
  lemma SignalTrendsDistinct()
    ensures |Signals| == 5 && DistinctTrends(Signals)
  {
    var firsts := ['A', 'C', 'D', 'S', 'I'];
    assert forall j :: 0 <= j < 5 ==> |Signals[j].trend| > 0 && Signals[j].trend[0] == firsts[j];
    forall j, k | 0 <= j < k < 5 ensures Signals[j].trend != Signals[k].trend {
      assert Signals[j].trend[0] != Signals[k].trend[0];
    }
  }

  /** `s` is the suggestion made for the signal named `s.trend`, whose
      internal score is positive. */
  predicate SuggestionFor(s: Suggestion, sigs: seq<Signal>, topTopics: seq<(String, nat)>, topPhrases: seq<(String, nat)>) {
    var i := TrendIndex(sigs, s.trend);
    i < |sigs| && InternalScore(topTopics, topPhrases, sigs[i]) > 0 &&
    s == MakeSuggestion(sigs[i], InternalScore(topTopics, topPhrases, sigs[i]))
  }

  /** Signal `i` has a suggestion in `r`. */
  predicate Suggested(r: seq<Suggestion>, sigs: seq<Signal>, i: nat)
    requires i < |sigs|
  {
    exists k :: 0 <= k < |r| && r[k].trend == sigs[i].trend
  }

  lemma {:induction false} TrendIndexPrefix(sigs: seq<Signal>, n: nat, t: String)
    requires n <= |sigs| && TrendIndex(sigs[..n], t) < n
    ensures TrendIndex(sigs, t) == TrendIndex(sigs[..n], t)
  {
    var i := TrendIndex(sigs[..n], t);
    assert sigs[..n][i] == sigs[i];
    assert forall j :: 0 <= j < n ==> sigs[..n][j] == sigs[j];
  }

  lemma TrendIndexLast(sigs: seq<Signal>)
    requires DistinctTrends(sigs) && |sigs| > 0
    ensures TrendIndex(sigs, sigs[|sigs| - 1].trend) == |sigs| - 1
    ensures TrendIndex(sigs[..|sigs| - 1], sigs[|sigs| - 1].trend) == |sigs| - 1
  {
    var n := |sigs| - 1;
    assert forall j :: 0 <= j < n ==> sigs[..n][j] == sigs[j];
  }

  /** Every candidate is the suggestion of its signal, and the candidates
      follow the signals' order. */
  lemma {:induction false} CandidatesSound(topTopics: seq<(String, nat)>, topPhrases: seq<(String, nat)>, sigs: seq<Signal>)
    requires DistinctTrends(sigs)
    ensures |Candidates(topTopics, topPhrases, sigs)| <= |sigs|
    ensures forall k :: 0 <= k < |Candidates(topTopics, topPhrases, sigs)| ==>
              SuggestionFor(Candidates(topTopics, topPhrases, sigs)[k], sigs, topTopics, topPhrases)
    ensures forall k, l :: 0 <= k < l < |Candidates(topTopics, topPhrases, sigs)| ==>
              TrendIndex(sigs, Candidates(topTopics, topPhrases, sigs)[k].trend) <
              TrendIndex(sigs, Candidates(topTopics, topPhrases, sigs)[l].trend)
  {
    if |sigs| > 0 {
      var n := |sigs| - 1;
      var p := sigs[..n];
      assert DistinctTrends(p) by {
        forall i, j | 0 <= i < j < n ensures p[i].trend != p[j].trend {
          assert p[i] == sigs[i] && p[j] == sigs[j];
        }
      }
      CandidatesSound(topTopics, topPhrases, p);
      var c, cp := Candidates(topTopics, topPhrases, sigs), Candidates(topTopics, topPhrases, p);
      var internal := InternalScore(topTopics, topPhrases, sigs[n]);
      assert |c| == |cp| + (if internal > 0 then 1 else 0);
      forall k | 0 <= k < |cp|
        ensures c[k] == cp[k]
        ensures TrendIndex(sigs, c[k].trend) == TrendIndex(p, cp[k].trend) < n
        ensures SuggestionFor(c[k], sigs, topTopics, topPhrases)
      {
        assert c[k] == cp[k];
        TrendIndexPrefix(sigs, n, cp[k].trend);
        assert p[TrendIndex(p, cp[k].trend)] == sigs[TrendIndex(p, cp[k].trend)];
      }
      if internal > 0 {
        TrendIndexLast(sigs);
        assert c[|cp|] == MakeSuggestion(sigs[n], internal);
      }
    }
  }

  /** Every signal with a positive internal score has a candidate. */
  lemma {:induction false} CandidatesComplete(topTopics: seq<(String, nat)>, topPhrases: seq<(String, nat)>, sigs: seq<Signal>, i: nat)
    requires i < |sigs| && InternalScore(topTopics, topPhrases, sigs[i]) > 0
    ensures Suggested(Candidates(topTopics, topPhrases, sigs), sigs, i)
  {
    var n := |sigs| - 1;
    var c := Candidates(topTopics, topPhrases, sigs);
    if i < n {
      var p := sigs[..n];
      CandidatesComplete(topTopics, topPhrases, p, i);
      var cp := Candidates(topTopics, topPhrases, p);
      var k :| 0 <= k < |cp| && cp[k].trend == p[i].trend;
      assert c[k] == cp[k];
    } else {
      assert c[|c| - 1].trend == sigs[i].trend;
    }
  }

  /** A candidate list, sorted stably by descending score, keeps all three
      facts: each entry is its signal's suggestion, each signal with a
      positive score has one, and the order is by score, then declaration. */
  lemma SortedCandidates(topTopics: seq<(String, nat)>, topPhrases: seq<(String, nat)>, sigs: seq<Signal>)
    requires DistinctTrends(sigs)
    ensures |Ranked(topTopics, topPhrases, sigs)| <= |sigs|
    ensures forall k :: 0 <= k < |Ranked(topTopics, topPhrases, sigs)| ==>
              SuggestionFor(Ranked(topTopics, topPhrases, sigs)[k], sigs, topTopics, topPhrases)
    ensures forall i :: 0 <= i < |sigs| && InternalScore(topTopics, topPhrases, sigs[i]) > 0 ==>
              Suggested(Ranked(topTopics, topPhrases, sigs), sigs, i)
    ensures SortedBy(Ranked(topTopics, topPhrases, sigs), Score, (s: Suggestion) => TrendIndex(sigs, s.trend))
  {
    var c := Candidates(topTopics, topPhrases, sigs);
    var r := Ranked(topTopics, topPhrases, sigs);
    CandidatesSound(topTopics, topPhrases, sigs);
    SortDescSorted(c, Score, (s: Suggestion) => TrendIndex(sigs, s.trend));
    forall k | 0 <= k < |r| ensures SuggestionFor(r[k], sigs, topTopics, topPhrases) {
      assert r[k] in multiset(c);
    }
    forall i | 0 <= i < |sigs| && InternalScore(topTopics, topPhrases, sigs[i]) > 0 ensures Suggested(r, sigs, i) {
      CandidatesComplete(topTopics, topPhrases, sigs, i);
      var m :| 0 <= m < |c| && c[m].trend == sigs[i].trend;
      assert c[m] in multiset(r);
      var k :| 0 <= k < |r| && r[k] == c[m];
    }
  }

  /** What the suggestions for a well-formed table of signals are. */
  predicate SuggestionsOk(r: seq<Suggestion>, trends: Trends, sigs: seq<Signal>)
    requires trends.Trends?
  {
    && |r| <= |sigs|
    && (forall k :: 0 <= k < |r| ==>
          && SuggestionFor(r[k], sigs, trends.topTopics, trends.topPhrases)
          && r[k].score >= 11 && r[k].kind == Opportunity && |r[k].guide| == 3)
    && (forall i :: 0 <= i < |sigs| && InternalScore(trends.topTopics, trends.topPhrases, sigs[i]) > 0 ==>
          Suggested(r, sigs, i))
    && (forall k, l :: 0 <= k < l < |r| ==>
          r[k].score > r[l].score ||
          (r[k].score == r[l].score && TrendIndex(sigs, r[k].trend) < TrendIndex(sigs, r[l].trend)))
  }

  lemma SuggestionsFromSpec(trends: Trends, sigs: seq<Signal>)
    requires trends.Trends? && WellFormed(sigs)
    ensures SuggestionsOk(SuggestionsFrom(trends, sigs), trends, sigs)
  {
    SortedCandidates(trends.topTopics, trends.topPhrases, sigs);
    var r := SuggestionsFrom(trends, sigs);
    assert r == Ranked(trends.topTopics, trends.topPhrases, sigs);
    forall k | 0 <= k < |r| ensures r[k].score >= 11 && r[k].kind == Opportunity && |r[k].guide| == 3 {
      assert SuggestionFor(r[k], sigs, trends.topTopics, trends.topPhrases);
      var i := TrendIndex(sigs, r[k].trend);
      assert r[k] == MakeSuggestion(sigs[i], InternalScore(trends.topTopics, trends.topPhrases, sigs[i]));
      assert |sigs[i].directions| == 3;
    }
    forall k, l | 0 <= k < l < |r|
      ensures r[k].score > r[l].score ||
        (r[k].score == r[l].score && TrendIndex(sigs, r[k].trend) < TrendIndex(sigs, r[l].trend))
    {
      assert Precedes(r[k], r[l], Score, (s: Suggestion) => TrendIndex(sigs, s.trend));
    }
  }

  /** `suggest_future_topics`: `[]` when `summarize_trends` found nothing;
      otherwise at most five suggestions, one for exactly the macro trends
      whose internal score is positive, each with score = internal score +
      10 (so at least 11), type "Strategic Opportunity", its reason, its own
      prediction and its three directions, ordered by non-increasing score
      and, among equal scores, in declaration order. */
  lemma SuggestionsSpec(trends: Trends)
    ensures trends.NoTrends? ==> SuggestionsOf(trends) == []
    ensures trends.Trends? ==> |Signals| == 5 && SuggestionsOk(SuggestionsOf(trends), trends, Signals)
  {
    if trends.Trends? {
      SignalsWellFormed();
      SuggestionsFromSpec(trends, Signals);
    }
  }

  /** No macro trend is suggested twice. */
  lemma SuggestionsDistinct(trends: Trends)
    ensures forall k, l :: 0 <= k < l < |SuggestionsOf(trends)| ==>
              SuggestionsOf(trends)[k].trend != SuggestionsOf(trends)[l].trend
  {
    SuggestionsSpec(trends);
  }

  /** When the top counts are positive and the phrases distinct, a signal is
      suggested exactly when one of its keywords occurs in a top phrase or
      a top topic. */
  lemma SuggestedIffMentioned(trends: Trends, sigs: seq<Signal>, i: nat)
    requires trends.Trends? && WellFormed(sigs) && i < |sigs|
    requires NoDup(Keys(trends.topPhrases))
    requires forall j :: 0 <= j < |trends.topPhrases| ==> trends.topPhrases[j].1 >= 1
    requires forall j :: 0 <= j < |trends.topTopics| ==> trends.topTopics[j].1 >= 1
    ensures Suggested(SuggestionsFrom(trends, sigs), sigs, i) <==>
      ((exists j :: 0 <= j < |trends.topPhrases| && Mentions(trends.topPhrases[j].0, sigs[i].keywords)) ||
       (exists j :: 0 <= j < |trends.topTopics| && Mentions(trends.topTopics[j].0, sigs[i].keywords)))
  {
    var kw := sigs[i].keywords;
    var r := SuggestionsFrom(trends, sigs);
    SuggestionsFromSpec(trends, sigs);
    DictOfDistinct(trends.topPhrases);
    PhraseScorePositive(trends.topPhrases, kw);
    TopicScorePositive(trends.topTopics, kw);
    if Suggested(r, sigs, i) {
      var k :| 0 <= k < |r| && r[k].trend == sigs[i].trend;
      assert SuggestionFor(r[k], sigs, trends.topTopics, trends.topPhrases);
      assert TrendIndex(sigs, r[k].trend) == i;
    }
  }

  /** A macro trend is suggested for the top lists of a topic history and
      a word list exactly when one of its keywords occurs in a top phrase or
      in a top topic: `most_common` counts are at least one, and its phrases
      are distinct so `dict` keeps them all. */
  lemma SuggestedWhenMentionedIn(topics: seq<String>, ws: seq<String>, stop: set<String>, sigs: seq<Signal>, i: nat)
    requires WellFormed(sigs) && i < |sigs|
    ensures Suggested(SuggestionsFrom(Summarize(topics, ws, stop), sigs), sigs, i) <==>
      ((exists j :: 0 <= j < |Summarize(topics, ws, stop).topPhrases| &&
                    Mentions(Summarize(topics, ws, stop).topPhrases[j].0, sigs[i].keywords)) ||
       (exists j :: 0 <= j < |Summarize(topics, ws, stop).topTopics| &&
                    Mentions(Summarize(topics, ws, stop).topTopics[j].0, sigs[i].keywords)))
  {
    var t := Summarize(topics, ws, stop);
    MostCommonPositive(Bigrams(ws, stop), 15);
    MostCommonPositive(topics, 15);
    assert t.topPhrases == MostCommon(Bigrams(ws, stop), 15);
    assert t.topTopics == MostCommon(topics, 15);
    SuggestedIffMentioned(t, sigs, i);
  }

  /** The same for the five macro trends, on what `summarize_trends`
      returns for a non-empty frame. */
  lemma SuggestedWhenMentioned(data: seq<Record>, i: nat)
    requires |data| > 0 && i < |Signals|
    ensures Suggested(SuggestionsOf(SummarizeTrendsOf(data)), Signals, i) <==>
      ((exists j :: 0 <= j < |SummarizeTrendsOf(data).topPhrases| &&
                    Mentions(SummarizeTrendsOf(data).topPhrases[j].0, Signals[i].keywords)) ||
       (exists j :: 0 <= j < |SummarizeTrendsOf(data).topTopics| &&
                    Mentions(SummarizeTrendsOf(data).topTopics[j].0, Signals[i].keywords)))
  {
    SignalsWellFormed();
    SuggestedWhenMentionedIn(AllTopics(data), TrendWords(data), TrendStopwords, Signals, i);
  }

  // ---------------------------------------------------------------------
  // The method, loop by loop

  method ScorePhrases(phrases: seq<(String, nat)>, keywords: seq<String>) returns (score: nat)
    ensures score == PhraseScore(phrases, keywords)
  {
    score := 0;
    for j := 0 to |phrases|
      invariant score == PhraseScore(phrases[..j], keywords)
    {
      assert phrases[..j + 1][..j] == phrases[..j];
      var (phrase, count) := phrases[j];
      if exists k :: 0 <= k < |keywords| && Contains(Lower(phrase), keywords[k]) {
        score := score + count;
      }
    }
    assert phrases[..|phrases|] == phrases;
  }

  method ScoreTopics(topics: seq<(String, nat)>, keywords: seq<String>) returns (score: nat)
    ensures score == TopicScore(topics, keywords)
  {
    score := 0;
    for j := 0 to |topics|
      invariant score == TopicScore(topics[..j], keywords)
    {
      assert topics[..j + 1][..j] == topics[..j];
      var (topic, count) := topics[j];
      if exists k :: 0 <= k < |keywords| && Contains(Lower(topic), keywords[k]) {
        score := score + count * TopicWeight;
      }
    }
    assert topics[..|topics|] == topics;
  }

  /** The signal loop of `suggest_future_topics` over a table of signals. */
  method ScoreSignals(topTopics: seq<(String, nat)>, phrases: seq<(String, nat)>, sigs: seq<Signal>)
    returns (candidates: seq<Suggestion>)
    ensures candidates == Candidates(topTopics, phrases, sigs)
  {
    var topPhrases := DictOf(phrases);
    candidates := [];
    for i := 0 to |sigs|
      invariant candidates == Candidates(topTopics, phrases, sigs[..i])
    {
      assert sigs[..i + 1][..i] == sigs[..i];
      var sig := sigs[i];
      var phraseScore := ScorePhrases(topPhrases, sig.keywords);
      var topicScore := ScoreTopics(topTopics, sig.keywords);
      var internalScore := phraseScore + topicScore;
      if internalScore > 0 {
        candidates := candidates + [MakeSuggestion(sig, internalScore)];
      }
    }
    assert sigs[..|sigs|] == sigs;
  }

  /** `suggest_future_topics` */
  method SuggestFutureTopics(trends: Trends) returns (suggestions: seq<Suggestion>)
    ensures suggestions == SuggestionsOf(trends)
  {
    if trends.NoTrends? {
      return [];
    }
    var candidates := ScoreSignals(trends.topTopics, trends.topPhrases, Signals);
    suggestions := SortDesc(candidates, Score);
  }

  // ---------------------------------------------------------------------
  // _generate_research_direction

  const BimAi: seq<String> := [
    "Automating code compliance checking using LLMs on BIM data.",
    "Generative scheduling: Using historical BIM data to predict construction timelines.",
    "Semantic search: Chat with your BIM model using Natural Language Processing."]

  const BimData: seq<String> := [
    "Building a Data Lake: Extracting granular Revit parameter data for cross-project analytics.",
    "API-first workflows: Connecting BIM directly to ERP/Procurement systems via APS.",
    "Standardizing data schemas for seamless Project-to-O&M handover."]

  const ConstructionAi: seq<String> := [
    "Visual QA/QC: Using Computer Vision on site photos to auto-update BIM status.",
    "Risk Prediction: Analyzing daily logs with AI to forecast safety incidents.",
    "Optimizing resource allocation with predictive machine learning models."]

  /** The generic directions, which name both topics as given. */
  function Templates(topic1: String, topic2: String): seq<String> {
    [Fill("How ", topic2, " technologies can automate manual workflows in ", topic1, "."),
     Fill("Case studies: ROI of integrating ", topic2, " into standard ", topic1, " deliverables."),
     Fill("Developing a pilot program to test ", topic2, " tools on a ", topic1, " project.")]
  }

  /** An f-string with two fields. */
  function Fill(a: String, x: String, b: String, y: String, c: String): String {
    a + x + b + y + c
  }

  /** `_generate_research_direction`: the first matching branch among
      bim+ai, bim+data and construction+ai on the lower-cased topics, else
      the templates. */
  function ResearchDirection(topic1: String, topic2: String): seq<String> {
    var t1, t2 := Lower(topic1), Lower(topic2);
    if Contains(t1, "bim") && Contains(Lower(t2), "ai") then BimAi
    else if Contains(t1, "bim") && Contains(Lower(t2), "data") then BimData
    else if Contains(t1, "construction") && Contains(Lower(t2), "ai") then ConstructionAi
    else Templates(topic1, topic2)
  }

  lemma FillContains(a: String, x: String, b: String, y: String, c: String)
    ensures Contains(Fill(a, x, b, y, c), x) && Contains(Fill(a, x, b, y, c), y)
  {
    var f := Fill(a, x, b, y, c);
    assert f[|a|..][..|x|] == x;
    assert f[|a + x + b|..][..|y|] == y;
  }

  lemma LowerIdempotent(s: String)
    ensures Lower(Lower(s)) == Lower(s)
  {
  }

  /** The generic directions name both topics. */
  lemma TemplatesNameTopics(topic1: String, topic2: String)
    ensures var r := Templates(topic1, topic2);
      |r| == 3 && forall k :: 0 <= k < 3 ==> Contains(r[k], topic1) && Contains(r[k], topic2)
  {
    FillContains("How ", topic2, " technologies can automate manual workflows in ", topic1, ".");
    FillContains("Case studies: ROI of integrating ", topic2, " into standard ", topic1, " deliverables.");
    FillContains("Developing a pilot program to test ", topic2, " tools on a ", topic1, " project.");
  }

  /** Always three directions: the fixed list of the first matching case,
      tested in order bim+ai, bim+data, construction+ai on the lower-cased
      topics, and otherwise the templates, which name both topics. */
  lemma ResearchDirectionSpec(topic1: String, topic2: String)
    ensures var r, t1, t2 := ResearchDirection(topic1, topic2), Lower(topic1), Lower(topic2);
      && |r| == 3
      && (Contains(t1, "bim") && Contains(t2, "ai") ==> r == BimAi)
      && (Contains(t1, "bim") && !Contains(t2, "ai") && Contains(t2, "data") ==> r == BimData)
      && (!Contains(t1, "bim") && Contains(t1, "construction") && Contains(t2, "ai") ==> r == ConstructionAi)
      && (!(Contains(t1, "bim") && (Contains(t2, "ai") || Contains(t2, "data"))) &&
          !(Contains(t1, "construction") && Contains(t2, "ai")) ==>
            forall k :: 0 <= k < 3 ==> Contains(r[k], topic1) && Contains(r[k], topic2))
  {
    LowerIdempotent(topic2);
    TemplatesNameTopics(topic1, topic2);
  }
}
