# Autodesk University class scraper and analyzer, modelled in Dafny

This project models the logic of a tool that collects the 2025 Autodesk
University class catalog, fetches each class page, stores the records, and
analyses them: tag lists, filtering, trending phrases, "key theme"
sentences, topic co-occurrence, and recommendations of market trends.

The browser, the HTML parser, pandas and the JSON files are replaced by
what the code reads from them:

- a catalog page is the sequence of its read attempts (the class anchors
  found, and what the next-page locator reported) plus the outcome of
  clicking "next";
- a class page is its first `h1`, its description meta, its candidate
  "Key Learnings" headers with the list after each, a flag for a "Tags"
  heading, and its table rows as cells;
- a data frame is a sequence of records.

Modules, one per concern:

| file | module | models |
|---|---|---|
| `text.dfy` | `Text` | ASCII `lower`/`upper`, `strip`, `in` on strings, `split('.')`, `split()` word count, `join`, `str(n)`, string `<` |
| `counting.dfy` | `Counting` | `collections.Counter` as its insertion history; `most_common(k)` as a stable descending sort |
| `catalog.dfy` | `Catalog` | `get_class_list`: link accumulation, the per-page retry loop, the page loop |
| `class_page.dfy` | `ClassPage` | `get_class_details`: title, summary, key learnings, tag routing, errors |
| `pipeline.dfy` | `Pipeline` | `scrape_all`: the dedup filter, batches of five, append to the saved records |
| `analyzer.dfy` | `Analyzer` | `get_all_*`, `filter_classes`, `summarize_trends` |
| `key_themes.dfy` | `KeyThemes` | `get_key_themes` |
| `co_occurrence.dfy` | `CoOccurrence` | `get_topic_intersections` |
| `recommender.dfy` | `Recommender` | `suggest_future_topics`, `_generate_research_direction` |

Code that works by loops is modelled twice. A method carries the loops,
with invariants, and is proved equal to a recursive function. Lemmas state
what the source promises about that function. The pitfalls of the code are
kept as written:

- the next-button flag is not reset between attempts;
- the tag `values` variable is not reset between table rows;
- the key-theme concept loop stops one trigram early;
- the key-theme overlap penalty and its `not in seen_sentences` test can
  never fire.

## Model

| member | source | states |
|---|---|---|
| Text.Lower | src/analyzer.py:75 | keeps the length and lower-cases every character |
| Text.StripSpec | src/scraper.py:240 | `strip()` returns a slice of its input with only whitespace (the full `str.isspace` set, no-break and Unicode spaces included) cut off at both ends, and the result has no surrounding whitespace |
| Text.StripIdempotent | src/analyzer.py:156 | stripping twice is stripping once |
| Text.Split | src/analyzer.py:154 | `split('.')` gives at least one piece, and no piece contains `'.'` |
| Text.LeastExists | src/analyzer.py:30 | every non-empty set of strings has a least element under Python's string order |
| Counting.SortDescSorted | src/analyzer.py:71 | the stable descending sort orders by key, and by original position among equal keys |
| Counting.MostCommonSpec | src/analyzer.py:71 | `most_common(k)` returns min(k, number of distinct values) entries, with distinct keys and their true counts (at least 1), in non-increasing count order; every value left out has a count no larger than the last entry |
| Catalog.MergeSpec | src/scraper.py:86-93 | folding a page into the URL map keeps the earlier entries in place; new entries have URLs the map lacked, appear once each, in first-seen order, with the first title seen; the URL set grows by exactly the page's URLs |
| Catalog.MergeGrowth | src/scraper.py:90-95 | the number of entries added equals the number of distinct page URLs not already in the map |
| Catalog.MergeAppend | src/scraper.py:86-93 | folding two pages one after the other equals folding their concatenation |
| Catalog.AddPageLinks | src/scraper.py:79-95 | the page's links loop computes the merged map and `new_links`, the count of fresh URLs |
| Catalog.ScanSpec | src/scraper.py:33-77 | a page gets 1 to 3 attempts; each earlier attempt had the next button enabled and fewer than 15 links; when fewer than 3 attempts were made, the last one was not underfilled; the links and the next flag come from the last attempt; there is one reload exactly when all 3 attempts were used |
| Catalog.ScanPage | src/scraper.py:33-77 | the retry loop computes the scan function |
| Catalog.CrawlCandidates | src/scraper.py:29-125 | the returned candidates are the fold of the links of every scanned page, in crawl order, with distinct URLs; at least one page is scanned when there is one |
| Catalog.CrawlStops | src/scraper.py:29-125 | the crawl goes on only after a page whose next button was enabled and whose click did not raise; it stops at the last page, on a click error, or when the snapshot ends; the page counter follows each successful click |
| Catalog.CrawlCatalog | src/scraper.py:29-125 | the page loop computes the crawl function |
| ClassPage.KeyLearningsSpec | src/scraper.py:151-160 | key learnings are the list after the first header containing "key learning", or none |
| ClassPage.TagRowsSpec | src/scraper.py:165-190 | the tag loop raises exactly when a routed row reads `values` before any row set it; otherwise each tag list is the concatenation, in row order, of the values of the rows routed to it (chips, else links, else text, else the previous row's values) |
| ClassPage.StaleValuesExample | src/scraper.py:174-186 | a row with an empty value cell reuses the previous row's values, and as the first row it raises |
| ClassPage.DetailsSpec | src/scraper.py:127-201 | the record keeps the URL, takes the `h1` as title, and has an error exactly on navigation failure, a description meta without content, or an unbound `values`, and then no tags; otherwise it has the summary or "", the key learnings, no speakers, and the routed tags (empty lists with no "Tags" heading) |
| ClassPage.CollectTags | src/scraper.py:165-192 | the row loop computes the tag function |
| ClassPage.FindKeyLearnings | src/scraper.py:152-160 | the header loop computes the key-learnings function |
| ClassPage.GetClassDetails | src/scraper.py:127-201 | the extraction computes the details function |
| Pipeline.FilterSubsequence | src/scraper.py:237-254 | the kept candidates are the input's candidates at strictly increasing positions |
| Pipeline.NormaliseNoBreakSpace | src/scraper.py:240-248 | a title with a trailing no-break space normalises to the saved title, so it counts as known |
| Pipeline.FilterAccepts | src/scraper.py:242-252 | no kept candidate has a known URL, a known normalised title, or "repeat" in its normalised title |
| Pipeline.FilterDistinct | src/scraper.py:254-257 | no two kept candidates share a URL or a normalised title |
| Pipeline.FilterKeepsFirst | src/scraper.py:237-257 | an acceptable candidate that no earlier candidate clashes with is kept |
| Pipeline.FilterRerun | src/scraper.py:254-257 | filtering again with the grown sets keeps nothing |
| Pipeline.FilterNew | src/scraper.py:236-257 | the filter loop computes the filter and grows the two sets by exactly the kept URLs and titles |
| Pipeline.RunBatches | src/scraper.py:266-273 | the batches are consecutive slices that partition the list, each of 1 to 5 elements and all but the last of 5; the results are one fetch per candidate in order; progress after batch k is min(5(k+1), n) |
| Pipeline.UpdateSpec | src/scraper.py:261-282 | nothing is saved when the filter keeps nothing; otherwise the saved records come first, unchanged, followed by one record per kept candidate, in order: the detail record fetched for it, with its URL, which no saved record has |
| Pipeline.ScrapeAll | src/scraper.py:203-282 | the whole run computes the update of the saved records with the crawled candidates |
| Pipeline.UpdateRerun | src/scraper.py:215-257 | a second run fetches nothing, provided no page renamed its class |
| Pipeline.RenamedClassRefetched | src/scraper.py:140-142 | without that proviso, a second run can fetch a class again |
| Analyzer.UnionOfSpec | src/analyzer.py:25-44 | the union holds exactly the values found in some record |
| Analyzer.SortedList | src/analyzer.py:30 | `sorted(list(s))` is strictly increasing and holds exactly the set's elements |
| Analyzer.AllValues | src/analyzer.py:25-44 | `get_all_*` returns a strictly sorted list holding exactly the values of some record |
| Analyzer.FilterClassesSpec | src/analyzer.py:46-60 | the filtered rows are the rows at increasing positions, and a row is kept iff it passes every non-empty selection |
| Analyzer.FilterNoSelection | src/analyzer.py:46-60 | with no selection every row is kept |
| Analyzer.TokensSpec | src/analyzer.py:85 | every token has at least three characters, all lower-case ASCII letters |
| Analyzer.TokensAtApostrophe | src/analyzer.py:85 | a curly apostrophe ends a word: `abc’s` gives `abc` |
| Analyzer.CleanHasNoStopwords | src/analyzer.py:87 | the cleaned words contain no stopword |
| Analyzer.NgramsOfCleanWords | src/analyzer.py:89-102 | on cleaned words, the bigrams are all adjacent pairs and the trigrams all adjacent triples |
| Analyzer.SummarizeTrendsSpec | src/analyzer.py:62-111 | `{}` exactly for no records; otherwise min(15, distinct) topics, min(15, distinct) phrases and min(10, distinct) trigrams, with distinct keys and their true counts, in non-increasing count order, and nothing left out counted more often than the last entry |
| Analyzer.CollectBigrams | src/analyzer.py:89-95 | the bigram loop computes the bigram function |
| Analyzer.CollectTrigrams | src/analyzer.py:97-102 | the trigram loop computes the trigram function |
| Analyzer.SummarizeTrends | src/analyzer.py:62-111 | the method computes the trends function |
| KeyThemes.NgramsMissLastTriple | src/analyzer.py:131-135 | the concepts number max(0, n-3) and are the adjacent triples without the last one |
| KeyThemes.PickSummariesOk | src/analyzer.py:146-173 | the chosen sentence, if any, mentions the concept, has at least 40 characters, is stripped, and contains no `'.'`, no "this class" and no "join us" |
| KeyThemes.PickSummariesBest | src/analyzer.py:150-173 | with only '.'-terminated sentences seen, the choice is empty exactly when no stripped piece of a summary that mentions the concept is eligible; otherwise it is the eligible piece with the most words, the first one on ties (`quality_score > max_quality`) |
| KeyThemes.AddConceptNone | src/analyzer.py:145-186 | a concept adds no insight when no piece mentioning it is eligible |
| KeyThemes.AddConceptBest | src/analyzer.py:145-186 | otherwise the concept adds exactly one insight, the polished eligible piece with the most words, the first one on ties |
| KeyThemes.NoOverlapPenalty | src/analyzer.py:169 | the overlap penalty never applies, because sentences hold no `'.'` and every stored insight ends with one |
| KeyThemes.ChosenNeverSeen | src/analyzer.py:175 | a chosen sentence is never among the seen sentences |
| KeyThemes.AddConceptAlwaysAdds | src/analyzer.py:175-187 | a concept that finds a sentence always adds an insight, even one already present |
| KeyThemes.PolishChosen | src/analyzer.py:177-180 | polishing appends `'.'`, capitalises, and keeps the sentence's lower-case content |
| KeyThemes.KeyThemesSpec | src/analyzer.py:113-196 | `[]` for no records; the two fixed sentences when nothing is found; otherwise at most six insights, each ending with `'.'`, at least 41 characters long, free of "this class" and "join us", and mentioning a concept counted at least twice |
| KeyThemes.BuildNgrams | src/analyzer.py:131-135 | the n-gram loop computes the concept list |
| KeyThemes.ScanSentences | src/analyzer.py:154-173 | the sentence loop computes the sentence choice |
| KeyThemes.BestSentence | src/analyzer.py:149-173 | the summary loop computes the sentence choice |
| KeyThemes.CollectThemes | src/analyzer.py:140-189 | the concept loop computes the insights of the concept-loop function, including the early stop at six |
| KeyThemes.GetKeyThemes | src/analyzer.py:113-196 | the method computes the key-themes function |
| CoOccurrence.CoCount | src/analyzer.py:206-216 | the count of `b` among `a`'s companions is the number of ordered pairs of distinct positions holding `a` then `b`, summed over records |
| CoOccurrence.CoSymmetric | src/analyzer.py:206-216 | co-occurrence counts are symmetric |
| CoOccurrence.CoKeys | src/analyzer.py:208-212 | the table's keys are exactly the topics of some record |
| CoOccurrence.IntersectionsSpec | src/analyzer.py:198-223 | `{}` for no records; one key per topic; each list is the top 5 of its counter: min(5, distinct companions) entries with distinct keys and true counts, in non-increasing order, and no companion left out counted more often than the last entry |
| CoOccurrence.TopicIntersections | src/analyzer.py:198-223 | the method computes the intersections function |
| Recommender.DictOfDistinct | src/recommender.py:22 | `dict` of pairs with distinct keys is the same list |
| Recommender.PhraseScorePositive | src/recommender.py:80-83 | the phrase score is positive iff some phrase with a positive count mentions a keyword |
| Recommender.TopicScorePositive | src/recommender.py:85-88 | the topic score is positive iff some topic with a positive count mentions a keyword |
| Recommender.SuggestionsSpec | src/recommender.py:13-101 | `[]` for no trends; otherwise at most five suggestions, one for exactly each trend with a positive internal score, with score internal + 10 (at least 11), type "Strategic Opportunity", its reason, prediction and three directions, ordered by non-increasing score and then declaration order |
| Recommender.SuggestionsDistinct | src/recommender.py:76-99 | no trend is suggested twice |
| Recommender.SuggestedWhenMentioned | src/recommender.py:76-91 | on `summarize_trends` output, a trend is suggested iff one of its keywords occurs in a top phrase or a top topic |
| Recommender.ScorePhrases | src/recommender.py:80-83 | the phrase loop computes the phrase score |
| Recommender.ScoreTopics | src/recommender.py:85-88 | the topic loop computes the topic score |
| Recommender.CandidatesSound | src/recommender.py:76-99 | each unsorted candidate is the suggestion built for a signal with a positive internal score, and the candidates follow the signals' declaration order |
| Recommender.ScoreSignals | src/recommender.py:76-99 | the signal loop computes the unsorted candidate list |
| Recommender.SuggestFutureTopics | src/recommender.py:13-101 | the method computes the suggestions function |
| Recommender.TemplatesNameTopics | src/recommender.py:128-133 | each generic direction names both topics |
| Recommender.ResearchDirectionSpec | src/recommender.py:103-135 | always three directions: the fixed list of the first matching case among bim+ai, bim+data and construction+ai, else the generic ones |

## Left out

- Browser control is not modelled: navigation, the cookie banner, waits, scrolling, sleeps, the reload itself, and the 20-poll content check. Their observable results are inputs.
- HTML parsing and CSS selectors are not modelled. A page is given as the parts the code reads.
- `asyncio.gather` is modelled as a sequential fetch per batch. Concurrency is not modelled.
- JSON load and save, `os.path.exists`, `makedirs` and logging are left out. The saved dataset is a parameter and a result.
- A failed load of the saved file is not modelled. It only logs and continues with no saved records.
- `str(e)` is modelled as a fault kind; the message text is not modelled.
- `page.close()` in `finally` is left out.
- `context.new_page()` sits outside the `try`, and a failure there would escape; this is left out.
- A navigation error on the catalog URL itself ends the whole run; this is left out.
- The `limit` parameter of `scrape_all` is never used by the code, so it is not modelled.
- The crawl runs over a finite snapshot of pages, so it has one extra stop reason: the snapshot ended.
- pandas is not modelled. A frame is a sequence of records, and a record without a tags dict has empty tag lists.
- A frame whose records all lack a `tags` or `summary` column raises `KeyError`; this is not modelled.
- Unicode case mapping is not modelled. Lower- and upper-casing are ASCII only.
- Analyzer.WordChar: Python's `\w` matches exactly the Unicode letters and digits and `_`. Beyond ASCII, the model excludes the C1 controls, the Latin-1 signs and punctuation, the General Punctuation block, the currency signs, the trade mark sign and whitespace, and counts every other character as a word character. So a word of three or more letters that touches another non-ASCII symbol, such as an arrow, a mathematical sign or CJK punctuation, is dropped by the model, while Python keeps it.
- The non-ASCII stopwords of `summarize_trends` never match, because every token is lower-case ASCII.
- The records are not guaranteed to have tags before they are saved. On the error path the code leaves `tags` unset, and the model keeps that.
- Re-running `scrape_all` is not idempotent in general. An `h1` can rename a class and let a skipped duplicate through on the next run. Pipeline.UpdateRerun proves idempotence under a no-rename proviso, and Pipeline.RenamedClassRefetched shows the failing case.
- The bold-concept string computed in `get_key_themes` is never used, so it is not modelled.
- The Streamlit UI, the debug scripts and the test script are not modelled.
