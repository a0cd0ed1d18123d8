/** The incremental update of `scrape_all` (src/scraper.py): candidates
    from the catalog crawl are filtered against the saved records, the
    survivors are fetched in batches of five, and the results are appended
    to the saved records. Loading and saving the JSON file are left out:
    the saved records are an input and the new dataset an output. */
module Pipeline {
  import opened Text
  import opened Wrappers
  import opened Catalog
  import opened ClassPage

  const BatchSize: nat := 5

  /** `title.strip().lower()` */
  function Normalise(title: String): String {
    Lower(Strip(title))
  }

  /** A trailing no-break space does not make a title new. */
  lemma NormaliseNoBreakSpace()
    ensures Normalise("Revit Tips\U{00A0}") == Normalise("Revit Tips")
  {
    assert StripRight("Revit Tips\U{00A0}") == StripRight("Revit Tips");
  }

  /** The URLs of the saved records. */
  function ExistingUrls(existing: seq<Record>): set<String> {
    set r | r in existing :: r.url
  }

  /** The normalised titles of the saved records. */
  function ExistingTitles(existing: seq<Record>): set<String> {
    set r | r in existing :: Normalise(r.title)
  }

  function UrlsOf(cs: seq<Candidate>): set<String> {
    set c | c in cs :: c.url
  }

  function TitlesOf(cs: seq<Candidate>): set<String> {
    set c | c in cs :: Normalise(c.title)
  }

  lemma OfSnoc(cs: seq<Candidate>, c: Candidate)
    ensures UrlsOf(cs + [c]) == UrlsOf(cs) + {c.url}
    ensures TitlesOf(cs + [c]) == TitlesOf(cs) + {Normalise(c.title)}
  {
    assert forall x :: x in cs + [c] <==> x in cs || x == c;
  }

  predicate Repeated(title: String) {
    Contains(Normalise(title), "repeat")
  }

  /** The three rules, in order: a known URL, a known title, "repeat" in
      the title. */
  predicate Accept(c: Candidate, urls: set<String>, titles: set<String>) {
    && c.url !in urls
    && Normalise(c.title) !in titles
    && !Repeated(c.title)
  }

  /** The filtered list: each accepted candidate joins the exclusion sets
      before the next one is judged. */
  function Filter(cands: seq<Candidate>, urls: set<String>, titles: set<String>): (r: seq<Candidate>)
    ensures |r| <= |cands|
  {
    if |cands| == 0 then []
    else if Accept(cands[0], urls, titles) then
      [cands[0]] + Filter(cands[1..], urls + {cands[0].url}, titles + {Normalise(cands[0].title)})
    else Filter(cands[1..], urls, titles)
  }

  function Shift(ps: seq<nat>): (r: seq<nat>)
    ensures |r| == |ps| && forall k :: 0 <= k < |ps| ==> r[k] == ps[k] + 1
  {
    seq(|ps|, k requires 0 <= k < |ps| => ps[k] + 1)
  }

  /** The positions of the accepted candidates. */
  function Kept(cands: seq<Candidate>, urls: set<String>, titles: set<String>): seq<nat> {
    if |cands| == 0 then []
    else if Accept(cands[0], urls, titles) then
      [0] + Shift(Kept(cands[1..], urls + {cands[0].url}, titles + {Normalise(cands[0].title)}))
    else Shift(Kept(cands[1..], urls, titles))
  }

  /** The kept positions are positions of the input, strictly increasing. */
  lemma {:induction false} KeptIncreasing(cands: seq<Candidate>, urls: set<String>, titles: set<String>)
    ensures forall k :: 0 <= k < |Kept(cands, urls, titles)| ==> Kept(cands, urls, titles)[k] < |cands|
    ensures forall k1, k2 :: 0 <= k1 < k2 < |Kept(cands, urls, titles)| ==>
              Kept(cands, urls, titles)[k1] < Kept(cands, urls, titles)[k2]
  {
    if |cands| > 0 {
      var c, rest := cands[0], cands[1..];
      if Accept(c, urls, titles) {
        KeptIncreasing(rest, urls + {c.url}, titles + {Normalise(c.title)});
      } else {
        KeptIncreasing(rest, urls, titles);
      }
    }
  }

  /** The filter's output is the candidates at the kept positions. */
  lemma {:induction false} FilterAtKept(cands: seq<Candidate>, urls: set<String>, titles: set<String>)
    ensures |Kept(cands, urls, titles)| == |Filter(cands, urls, titles)|
    ensures forall k :: 0 <= k < |Kept(cands, urls, titles)| ==>
              Kept(cands, urls, titles)[k] < |cands| &&
              Filter(cands, urls, titles)[k] == cands[Kept(cands, urls, titles)[k]]
  {
    if |cands| > 0 {
      var c, rest := cands[0], cands[1..];
      var u, t := urls, titles;
      if Accept(c, urls, titles) {
        u, t := urls + {c.url}, titles + {Normalise(c.title)};
      }
      FilterAtKept(rest, u, t);
      var ks, fs := Kept(rest, u, t), Filter(rest, u, t);
      var d := if Accept(c, urls, titles) then 1 else 0;
      assert Kept(cands, urls, titles) == (if d == 1 then [0] else []) + Shift(ks);
      assert Filter(cands, urls, titles) == (if d == 1 then [c] else []) + fs;
      forall k | d <= k < |Kept(cands, urls, titles)|
        ensures Kept(cands, urls, titles)[k] < |cands| &&
                Filter(cands, urls, titles)[k] == cands[Kept(cands, urls, titles)[k]]
      {
        assert Kept(cands, urls, titles)[k] == ks[k - d] + 1;
        assert Filter(cands, urls, titles)[k] == fs[k - d] == rest[ks[k - d]];
      }
    }
  }

  /** The filter keeps candidates in their original order: its output is
      the candidates at strictly increasing positions. */
  lemma FilterSubsequence(cands: seq<Candidate>, urls: set<String>, titles: set<String>)
    ensures |Kept(cands, urls, titles)| == |Filter(cands, urls, titles)|
    ensures forall k :: 0 <= k < |Kept(cands, urls, titles)| ==>
              Kept(cands, urls, titles)[k] < |cands| &&
              Filter(cands, urls, titles)[k] == cands[Kept(cands, urls, titles)[k]]
    ensures forall k1, k2 :: 0 <= k1 < k2 < |Kept(cands, urls, titles)| ==>
              Kept(cands, urls, titles)[k1] < Kept(cands, urls, titles)[k2]
  {
    FilterAtKept(cands, urls, titles);
    KeptIncreasing(cands, urls, titles);
  }

  /** Every kept candidate passes all three rules against the sets it was
      judged with, so in particular against the initial ones. */
  lemma {:induction false} FilterAccepts(cands: seq<Candidate>, urls: set<String>, titles: set<String>)
    ensures forall c :: c in Filter(cands, urls, titles) ==> Accept(c, urls, titles)
  {
    if |cands| > 0 {
      var c, rest := cands[0], cands[1..];
      if Accept(c, urls, titles) {
        FilterAccepts(rest, urls + {c.url}, titles + {Normalise(c.title)});
      } else {
        FilterAccepts(rest, urls, titles);
      }
    }
  }

  /** No two candidates share a URL or a normalised title. */
  predicate Unrelated(cs: seq<Candidate>) {
    forall k1, k2 :: 0 <= k1 < k2 < |cs| ==>
      cs[k1].url != cs[k2].url && Normalise(cs[k1].title) != Normalise(cs[k2].title)
  }

  lemma ConsUnrelated(c: Candidate, cs: seq<Candidate>)
    requires Unrelated(cs)
    requires forall d :: d in cs ==> d.url != c.url && Normalise(d.title) != Normalise(c.title)
    ensures Unrelated([c] + cs)
  {
    var r := [c] + cs;
    forall k1, k2 | 0 <= k1 < k2 < |r|
      ensures r[k1].url != r[k2].url && Normalise(r[k1].title) != Normalise(r[k2].title)
    {
      assert r[k2] == cs[k2 - 1] && r[k2] in cs;
      if k1 > 0 {
        assert r[k1] == cs[k1 - 1];
      }
    }
  }

  /** No two kept candidates share a URL or a normalised title. */
  lemma {:induction false} FilterDistinct(cands: seq<Candidate>, urls: set<String>, titles: set<String>)
    ensures Unrelated(Filter(cands, urls, titles))
  {
    if |cands| > 0 {
      var c, rest := cands[0], cands[1..];
      if Accept(c, urls, titles) {
        var u, t := urls + {c.url}, titles + {Normalise(c.title)};
        FilterDistinct(rest, u, t);
        FilterAccepts(rest, u, t);
        var rr := Filter(rest, u, t);
        assert Filter(cands, urls, titles) == [c] + rr;
        forall d | d in rr ensures d.url != c.url && Normalise(d.title) != Normalise(c.title) {
          assert Accept(d, u, t);
        }
        ConsUnrelated(c, rr);
      } else {
        assert Filter(cands, urls, titles) == Filter(rest, urls, titles);
        FilterDistinct(rest, urls, titles);
      }
    }
  }

  /** A candidate that passes the rules against the initial sets and shares
      neither URL nor normalised title with any earlier candidate is kept. */
  lemma {:induction false} FilterKeepsFirst(cands: seq<Candidate>, urls: set<String>, titles: set<String>, i: nat)
    requires i < |cands| && Accept(cands[i], urls, titles)
    requires forall j :: 0 <= j < i ==>
               cands[j].url != cands[i].url && Normalise(cands[j].title) != Normalise(cands[i].title)
    ensures cands[i] in Filter(cands, urls, titles)
  {
    if i > 0 {
      var c, rest := cands[0], cands[1..];
      assert rest[i - 1] == cands[i];
      forall j | 0 <= j < i - 1
        ensures rest[j].url != rest[i - 1].url && Normalise(rest[j].title) != Normalise(rest[i - 1].title)
      {
        assert rest[j] == cands[j + 1];
      }
      if Accept(c, urls, titles) {
        FilterKeepsFirst(rest, urls + {c.url}, titles + {Normalise(c.title)}, i - 1);
      } else {
        FilterKeepsFirst(rest, urls, titles, i - 1);
      }
    }
  }

  /** The sets after the filter reject every candidate it was given. */
  lemma {:induction false} FilterClosesSets(cands: seq<Candidate>, urls: set<String>, titles: set<String>)
    ensures var r := Filter(cands, urls, titles);
      forall c :: c in cands ==> !Accept(c, urls + UrlsOf(r), titles + TitlesOf(r))
  {
    if |cands| > 0 {
      var c, rest := cands[0], cands[1..];
      var r := Filter(cands, urls, titles);
      if Accept(c, urls, titles) {
        var u, t := urls + {c.url}, titles + {Normalise(c.title)};
        FilterClosesSets(rest, u, t);
        var rr := Filter(rest, u, t);
        assert r == [c] + rr;
        assert c.url in UrlsOf(r);
        assert UrlsOf(rr) <= UrlsOf(r) && TitlesOf(rr) <= TitlesOf(r) by {
          forall x | x in rr ensures x in r { }
        }
        forall x | x in cands ensures !Accept(x, urls + UrlsOf(r), titles + TitlesOf(r)) {
          if x != c {
            assert x in rest;
            RejectMonotone(x, u + UrlsOf(rr), t + TitlesOf(rr), urls + UrlsOf(r), titles + TitlesOf(r));
          }
        }
      } else {
        FilterClosesSets(rest, urls, titles);
        assert r == Filter(rest, urls, titles);
        forall x | x in cands ensures !Accept(x, urls + UrlsOf(r), titles + TitlesOf(r)) {
          if x != c {
            assert x in rest;
          } else {
            RejectMonotone(x, urls, titles, urls + UrlsOf(r), titles + TitlesOf(r));
          }
        }
      }
    }
  }

  /** Larger exclusion sets reject at least what smaller ones reject. */
  lemma RejectMonotone(c: Candidate, urls: set<String>, titles: set<String>, urls': set<String>, titles': set<String>)
    requires urls <= urls' && titles <= titles' && !Accept(c, urls, titles)
    ensures !Accept(c, urls', titles')
  {
  }

  /** A filter that rejects every candidate keeps nothing. */
  lemma {:induction false} FilterNothing(cands: seq<Candidate>, urls: set<String>, titles: set<String>)
    requires forall c :: c in cands ==> !Accept(c, urls, titles)
    ensures Filter(cands, urls, titles) == []
  {
    if |cands| > 0 {
      assert cands[0] in cands;
      forall c | c in cands[1..] ensures !Accept(c, urls, titles) {
        assert c in cands;
      }
      FilterNothing(cands[1..], urls, titles);
    }
  }

  /** Filtering the same candidates again with the updated sets keeps nothing. */
  lemma FilterRerun(cands: seq<Candidate>, urls: set<String>, titles: set<String>)
    ensures var r := Filter(cands, urls, titles);
      Filter(cands, urls + UrlsOf(r), titles + TitlesOf(r)) == []
  {
    var r := Filter(cands, urls, titles);
    FilterClosesSets(cands, urls, titles);
    FilterNothing(cands, urls + UrlsOf(r), titles + TitlesOf(r));
  }

  /** The deduplication loop of `scrape_all`: returns the candidates to
      fetch and the exclusion sets it grew along the way. */
  method FilterNew(cands: seq<Candidate>, urls0: set<String>, titles0: set<String>)
    returns (todo: seq<Candidate>, urls: set<String>, titles: set<String>)
    ensures todo == Filter(cands, urls0, titles0)
    ensures urls == urls0 + UrlsOf(todo) && titles == titles0 + TitlesOf(todo)
  {
    todo, urls, titles := [], urls0, titles0;
    var i := 0;
    while i < |cands|
      invariant 0 <= i <= |cands|
      invariant todo + Filter(cands[i..], urls, titles) == Filter(cands, urls0, titles0)
      invariant urls == urls0 + UrlsOf(todo) && titles == titles0 + TitlesOf(todo)
    {
      var c := cands[i];
      var titleLower := Normalise(c.title);
      assert cands[i..][1..] == cands[i + 1..];
      assert !Accept(c, urls, titles) ==> Filter(cands[i..], urls, titles) == Filter(cands[i + 1..], urls, titles);
      if c.url in urls {
      } else if titleLower in titles {
      } else if Contains(titleLower, "repeat") {
      } else {
        var rest := Filter(cands[i + 1..], urls + {c.url}, titles + {titleLower});
        assert Filter(cands[i..], urls, titles) == [c] + rest;
        assert (todo + [c]) + rest == todo + ([c] + rest);
        OfSnoc(todo, c);
        todo := todo + [c];
        urls := urls + {c.url};
        titles := titles + {titleLower};
      }
      i := i + 1;
    }
  }

  /** The records fetched for a list of candidates, in its order. */
  function Fetch(todo: seq<Candidate>, site: String -> Visit): (rs: seq<Record>)
    ensures |rs| == |todo|
  {
    seq(|todo|, k requires 0 <= k < |todo| => Details(todo[k], site(todo[k].url)))
  }

  function Flatten<T>(xss: seq<seq<T>>): seq<T> {
    if |xss| == 0 then [] else Flatten(xss[..|xss| - 1]) + xss[|xss| - 1]
  }

  function Min(a: nat, b: nat): nat {
    if a <= b then a else b
  }

  /** The batch loop: `range(0, n, 5)`, one slice per step, each slice
      fetched and appended, and the progress figure of each step. */
  /** `asyncio.gather` over one batch: one detail fetch per candidate, the
      results in batch order. */
  method FetchBatch(batch: seq<Candidate>, site: String -> Visit) returns (batchResults: seq<Record>)
    ensures batchResults == Fetch(batch, site)
  {
    batchResults := [];
    var j := 0;
    while j < |batch|
      invariant 0 <= j <= |batch|
      invariant batchResults == Fetch(batch[..j], site)
    {
      batchResults := batchResults + [Details(batch[j], site(batch[j].url))];
      j := j + 1;
    }
    assert batch[..j] == batch;
  }

  method RunBatches(todo: seq<Candidate>, site: String -> Visit)
    returns (results: seq<Record>, batches: seq<seq<Candidate>>, progress: seq<nat>)
    ensures results == Fetch(todo, site)
    ensures Flatten(batches) == todo
    ensures forall k :: 0 <= k < |batches| ==> 1 <= |batches[k]| <= BatchSize
    ensures forall k :: 0 <= k < |batches| - 1 ==> |batches[k]| == BatchSize
    ensures |progress| == |batches|
    ensures forall k :: 0 <= k < |progress| ==> progress[k] == Min(BatchSize * (k + 1), |todo|)
  {
    results, batches, progress := [], [], [];
    var i := 0;
    while i < |todo|
      invariant i == BatchSize * |batches| || (i == |todo| && |batches| > 0)
      invariant 0 <= i <= |todo|
      invariant Flatten(batches) == todo[..i]
      invariant results == Fetch(todo[..i], site)
      invariant forall k :: 0 <= k < |batches| ==> 1 <= |batches[k]| <= BatchSize
      invariant forall k :: 0 <= k < |batches| - 1 ==> |batches[k]| == BatchSize
      invariant i < |todo| ==> forall k :: 0 <= k < |batches| ==> |batches[k]| == BatchSize
      invariant |progress| == |batches|
      invariant forall k :: 0 <= k < |progress| ==> progress[k] == Min(BatchSize * (k + 1), |todo|)
      decreases |todo| - i
    {
      var end := Min(i + BatchSize, |todo|);
      var batch := todo[i..end];
      var batchResults := FetchBatch(batch, site);
      assert todo[..end] == todo[..i] + batch;
      assert Fetch(todo[..end], site) == Fetch(todo[..i], site) + batchResults;
      assert Flatten(batches + [batch]) == Flatten(batches) + batch by {
        assert (batches + [batch])[..|batches|] == batches;
      }
      results := results + batchResults;
      batches := batches + [batch];
      progress := progress + [end];
      i := end;
    }
    assert todo[..i] == todo;
  }

  /** How a run ends: nothing new to fetch (nothing is saved), or the new
      dataset that is saved together with the fetched records. */
  datatype Outcome = NothingNew | Saved(dataset: seq<Record>, results: seq<Record>)

  /** `scrape_all` after the crawl, as a value. */
  function Update(existing: seq<Record>, candidates: seq<Candidate>, site: String -> Visit): Outcome {
    var todo := Filter(candidates, ExistingUrls(existing), ExistingTitles(existing));
    if |todo| == 0 then NothingNew
    else Saved(existing + Fetch(todo, site), Fetch(todo, site))
  }

  /** What a run promises: nothing is saved when the filter keeps nothing;
      otherwise the saved records come first, unchanged, followed by one
      fetched record per kept candidate, in order, with that candidate's URL,
      a URL no saved record has. */
  lemma UpdateSpec(existing: seq<Record>, candidates: seq<Candidate>, site: String -> Visit)
    ensures var todo := Filter(candidates, ExistingUrls(existing), ExistingTitles(existing));
      match Update(existing, candidates, site)
      case NothingNew => todo == []
      case Saved(dataset, results) =>
        && |todo| > 0
        && |results| == |todo|
        && |dataset| == |existing| + |results|
        && dataset[..|existing|] == existing
        && dataset[|existing|..] == results
        && forall k :: 0 <= k < |results| ==>
             results[k].url == todo[k].url
             && results[k].url !in ExistingUrls(existing)
             && results[k] == Details(todo[k], site(todo[k].url))
  {
    var todo := Filter(candidates, ExistingUrls(existing), ExistingTitles(existing));
    FilterAccepts(candidates, ExistingUrls(existing), ExistingTitles(existing));
    var results := Fetch(todo, site);
    forall k | 0 <= k < |results| ensures results[k].url == todo[k].url {
      DetailsSpec(todo[k], site(todo[k].url));
    }
    forall k | 0 <= k < |results| ensures results[k].url !in ExistingUrls(existing) {
      assert todo[k] in todo;
    }
  }

  /** `scrape_all`: crawl the catalog, keep the new candidates, fetch them
      in batches and append the records to the saved ones. */
  method ScrapeAll(existing: seq<Record>, pages: seq<PageView>, site: String -> Visit) returns (outcome: Outcome)
    requires Observable(pages)
    ensures outcome == Update(existing, Crawl(pages).candidates, site)
  {
    var existingTitles := ExistingTitles(existing);
    var existingUrls := ExistingUrls(existing);
    var found := CrawlCatalog(pages);
    var todo, _, _ := FilterNew(found.candidates, existingUrls, existingTitles);
    if |todo| == 0 {
      return NothingNew;
    }
    var results, _, _ := RunBatches(todo, site);
    return Saved(existing + results, results);
  }

  /** Running again on the saved dataset fetches nothing, provided no
      fetched page renamed its class (its `h1` normalises to the listing
      title): every kept candidate's URL and title are then saved. */
  lemma UpdateRerun(existing: seq<Record>, candidates: seq<Candidate>, site: String -> Visit)
    requires Update(existing, candidates, site).Saved?
    requires var o := Update(existing, candidates, site);
      var todo := Filter(candidates, ExistingUrls(existing), ExistingTitles(existing));
      forall k :: 0 <= k < |todo| ==> Normalise(o.results[k].title) == Normalise(todo[k].title)
    ensures Update(Update(existing, candidates, site).dataset, candidates, site) == NothingNew
  {
    var u0, t0 := ExistingUrls(existing), ExistingTitles(existing);
    var todo := Filter(candidates, u0, t0);
    var o := Update(existing, candidates, site);
    UpdateSpec(existing, candidates, site);
    var dataset := o.dataset;
    assert dataset == existing + o.results;
    forall u | u in u0 + UrlsOf(todo) ensures u in ExistingUrls(dataset) {
      if u in u0 {
        var r :| r in existing && r.url == u;
        assert r in dataset;
      } else {
        var c :| c in todo && c.url == u;
        var k :| 0 <= k < |todo| && todo[k] == c;
        assert o.results[k] == dataset[|existing| + k];
      }
    }
    forall t | t in t0 + TitlesOf(todo) ensures t in ExistingTitles(dataset) {
      if t in t0 {
        var r :| r in existing && Normalise(r.title) == t;
        assert r in dataset;
      } else {
        var c :| c in todo && Normalise(c.title) == t;
        var k :| 0 <= k < |todo| && todo[k] == c;
        assert o.results[k] == dataset[|existing| + k];
      }
    }
    FilterClosesSets(candidates, u0, t0);
    forall c | c in candidates ensures !Accept(c, ExistingUrls(dataset), ExistingTitles(dataset)) {
      RejectMonotone(c, u0 + UrlsOf(todo), t0 + TitlesOf(todo), ExistingUrls(dataset), ExistingTitles(dataset));
    }
    FilterNothing(candidates, ExistingUrls(dataset), ExistingTitles(dataset));
  }

  /** Without that proviso a rerun can fetch again: two listings share the
      title "X", the second is skipped as a duplicate, the first page's `h1`
      renames it "Y", and on the next run the second no longer clashes. */
  lemma RenamedClassRefetched()
    ensures var cands := [Candidate("u1", "X"), Candidate("u2", "X")];
      var site := (u: String) => Loaded(Page(Some("Y"), None, [], false, []));
      var o := Update([], cands, site);
      && o.Saved? && |o.results| == 1
      && Update(o.dataset, cands, site).Saved?
  {
    var cands := [Candidate("u1", "X"), Candidate("u2", "X")];
    var site := (u: String) => Loaded(Page(Some("Y"), None, [], false, []));
    assert Strip("X") == "X";
    assert Normalise("X") == "x";
    assert Strip("Y") == "Y";
    assert Normalise("Y") == "y";
    assert !Contains("x", "repeat");
    assert ExistingUrls([]) == {} && ExistingTitles([]) == {};
    assert Accept(cands[0], {}, {});
    assert !Accept(cands[1], {"u1"}, {"x"});
    assert cands[1..][1..] == [];
    assert Filter(cands, {}, {}) == [cands[0]];
    var o := Update([], cands, site);
    var rec := Details(cands[0], site("u1"));
    assert rec.title == "Y" && rec.url == "u1";
    assert o.dataset == [rec];
    assert ExistingUrls([rec]) == {"u1"};
    assert ExistingTitles([rec]) == {"y"};
    assert !Accept(cands[0], {"u1"}, {"y"});
    assert Accept(cands[1], {"u1"}, {"y"});
    assert Filter(cands, {"u1"}, {"y"}) == [cands[1]];
  }
}
