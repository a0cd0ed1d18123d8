/** The catalog crawl of `get_class_list` (src/scraper.py), with the browser
    replaced by what it showed: for every catalog page, the successive
    attempts to read it (the class anchors found and what the next-page
    locator reported) and the outcome of clicking "next". */
module Catalog {
  import opened Text
  import opened Counting

  /** Prefix given to a relative href. */
  const Origin: String := "https://www.autodesk.com"
  /** Attempts per catalog page. */
  const MaxRetries: nat := 3
  /** A page followed by a next page is expected to list at least this many classes. */
  const FullPage: nat := 15
  /** The retry count at which the page is reloaded. */
  const ReloadAt: nat := 2

  /** A class anchor: its `href` and its text (`get_text(strip=True)`). */
  datatype Anchor = Anchor(href: String, text: String)

  /** A catalog entry handed to the dedup filter: `{'url': ..., 'title': ...}`. */
  datatype Candidate = Candidate(url: String, title: String)

  /** What the next-page locator reported on one attempt. */
  datatype NextProbe =
    | NoButton              // the locator matched nothing (`count() == 0`)
    | Button(enabled: bool) // visible and not disabled
    | ProbeFailed           // the locator raised

  /** One read of a catalog page. */
  datatype Attempt = Attempt(anchors: seq<Anchor>, probe: NextProbe)

  /** Clicking "next": it raised, or it went through and the first anchor did
      (or did not, within the polling budget) change. */
  datatype Click = ClickFailed | Clicked(changed: bool)

  /** Everything the browser shows for one catalog page. */
  datatype PageView = PageView(attempts: seq<Attempt>, click: Click)

  /** Absolute URL of a class anchor. */
  function Resolve(href: String): String {
    if StartsWith(href, "http") then href else Origin + href
  }

  function Urls(links: seq<Candidate>): (us: seq<String>)
    ensures |us| == |links| && forall i :: 0 <= i < |links| ==> us[i] == links[i].url
  {
    seq(|links|, i requires 0 <= i < |links| => links[i].url)
  }

  /** The resolved URL of every anchor, in page order. */
  function PageUrls(found: seq<Anchor>): (us: seq<String>)
    ensures |us| == |found| && forall i :: 0 <= i < |found| ==> us[i] == Resolve(found[i].href)
  {
    seq(|found|, i requires 0 <= i < |found| => Resolve(found[i].href))
  }

  /** The text of the first anchor on the page that resolves to `u`. */
  function FirstTitle(found: seq<Anchor>, u: String): String
    requires u in PageUrls(found)
  {
    found[FirstIndex(PageUrls(found), u)].text
  }

  /** `all_links` (a URL -> title dict in insertion order) after one anchor. */
  function AddLink(links: seq<Candidate>, a: Anchor): seq<Candidate> {
    var u := Resolve(a.href);
    if u in Urls(links) then links else links + [Candidate(u, a.text)]
  }

  /** `all_links` after every anchor of `found`, in order. */
  function Merge(links: seq<Candidate>, found: seq<Anchor>): seq<Candidate>
    decreases |found|
  {
    if |found| == 0 then links
    else AddLink(Merge(links, found[..|found| - 1]), found[|found| - 1])
  }

  function UrlSet(links: seq<Candidate>): set<String> {
    set u | u in Urls(links)
  }

  function PageUrlSet(found: seq<Anchor>): set<String> {
    set u | u in PageUrls(found)
  }

  /** One anchor either leaves `all_links` alone (its URL is there) or adds
      one entry at the end. */
  lemma AddLinkCases(links: seq<Candidate>, a: Anchor)
    ensures var u := Resolve(a.href);
      if u in Urls(links) then AddLink(links, a) == links
      else AddLink(links, a) == links + [Candidate(u, a.text)] && Urls(AddLink(links, a)) == Urls(links) + [u]
  {
  }

  lemma PageUrlsSnoc(found: seq<Anchor>)
    requires |found| > 0
    ensures PageUrls(found) == PageUrls(found[..|found| - 1]) + [Resolve(found[|found| - 1].href)]
  {
  }

  /** Existing entries are kept, unchanged and in place. */
  lemma {:induction false} MergeKeeps(links: seq<Candidate>, found: seq<Anchor>)
    ensures |Merge(links, found)| >= |links| && Merge(links, found)[..|links|] == links
    decreases |found|
  {
    if |found| > 0 {
      var p := Merge(links, found[..|found| - 1]);
      MergeKeeps(links, found[..|found| - 1]);
      AddLinkCases(p, found[|found| - 1]);
    }
  }

  /** The URLs afterwards are the URLs before and the page's. */
  lemma {:induction false} MergeUrls(links: seq<Candidate>, found: seq<Anchor>)
    ensures forall u :: u in Urls(Merge(links, found)) <==> u in Urls(links) || u in PageUrls(found)
    decreases |found|
  {
    if |found| > 0 {
      var n := |found| - 1;
      var f := found[..n];
      var p := Merge(links, f);
      var r := Merge(links, found);
      assert r == AddLink(p, found[n]);
      MergeUrls(links, f);
      AddLinkCases(p, found[n]);
      var u := Resolve(found[n].href);
      PageUrlsSnoc(found);
      forall v ensures v in Urls(r) <==> v in Urls(links) || v in PageUrls(found) {
        assert v in Urls(r) <==> v in Urls(p) || v == u;
        assert v in PageUrls(found) <==> v in PageUrls(f) || v == u;
      }
    }
  }

  /** Added URLs are new and pairwise distinct, so a dict stays a dict. */
  lemma {:induction false} MergeAddsFresh(links: seq<Candidate>, found: seq<Anchor>)
    ensures |Merge(links, found)| >= |links|
    ensures NoDup(Urls(Merge(links, found))[|links|..])
    ensures forall k :: |links| <= k < |Merge(links, found)| ==> Merge(links, found)[k].url !in Urls(links)
    ensures NoDup(Urls(links)) ==> NoDup(Urls(Merge(links, found)))
    decreases |found|
  {
    MergeKeeps(links, found);
    if |found| > 0 {
      var n := |found| - 1;
      var p := Merge(links, found[..n]);
      var r := Merge(links, found);
      MergeAddsFresh(links, found[..n]);
      MergeKeeps(links, found[..n]);
      AddLinkCases(p, found[n]);
      var u := Resolve(found[n].href);
      if u !in Urls(p) {
        assert Urls(r)[|links|..] == Urls(p)[|links|..] + [u];
        forall k | 0 <= k < |links| ensures links[k].url in Urls(p) {
          assert p[k] == links[k];
        }
      }
    }
  }

  /** Every added entry carries a page URL and the title of the first anchor
      that resolves to it. */
  lemma {:induction false} MergeTitles(links: seq<Candidate>, found: seq<Anchor>)
    ensures |Merge(links, found)| >= |links|
    ensures forall k :: |links| <= k < |Merge(links, found)| ==>
              Merge(links, found)[k].url in PageUrls(found) &&
              Merge(links, found)[k].title == FirstTitle(found, Merge(links, found)[k].url)
    decreases |found|
  {
    MergeKeeps(links, found);
    if |found| > 0 {
      var n := |found| - 1;
      var f := found[..n];
      var p := Merge(links, f);
      var r := Merge(links, found);
      var u := Resolve(found[n].href);
      MergeTitles(links, f);
      MergeUrls(links, f);
      assert r == AddLink(p, found[n]);
      AddLinkCases(p, found[n]);
      PageUrlsSnoc(found);
      var P, Pf := PageUrls(found), PageUrls(f);
      assert P[..n] == Pf;
      forall k | |links| <= k < |r|
        ensures r[k].url in P && r[k].title == FirstTitle(found, r[k].url)
      {
        if k < |p| {
          assert r[k] == p[k];
          assert p[k].url in Pf;
          FirstIndexPrefix(P, n, p[k].url);
        } else {
          assert r[k] == Candidate(u, found[n].text);
          assert u !in Pf;
          assert FirstIndex(P, u) == n;
        }
      }
    }
  }

  /** Added entries follow the order in which their URLs first appear on the page. */
  lemma {:induction false} MergeOrder(links: seq<Candidate>, found: seq<Anchor>)
    ensures |Merge(links, found)| >= |links|
    ensures forall k1, k2 :: |links| <= k1 < k2 < |Merge(links, found)| ==>
              FirstIndex(PageUrls(found), Merge(links, found)[k1].url) <
              FirstIndex(PageUrls(found), Merge(links, found)[k2].url)
    decreases |found|
  {
    MergeKeeps(links, found);
    if |found| > 0 {
      var n := |found| - 1;
      var f := found[..n];
      var p := Merge(links, f);
      var r := Merge(links, found);
      var u := Resolve(found[n].href);
      MergeOrder(links, f);
      MergeTitles(links, f);
      MergeUrls(links, f);
      assert r == AddLink(p, found[n]);
      AddLinkCases(p, found[n]);
      PageUrlsSnoc(found);
      var P, Pf := PageUrls(found), PageUrls(f);
      assert P[..n] == Pf;
      forall k | |links| <= k < |p|
        ensures r[k] == p[k] && FirstIndex(P, p[k].url) == FirstIndex(Pf, p[k].url) < n
      {
        FirstIndexPrefix(P, n, p[k].url);
      }
      if u !in Urls(p) {
        assert u !in Pf;
        assert FirstIndex(P, u) == n;
      }
    }
  }

  /** What merging a page into `all_links` does: existing entries are kept as
      they are and in place; every new entry is a page URL not present before,
      titled by the first anchor that resolves to it, and new entries follow
      the page order of first appearance; the URLs afterwards are the old ones
      and the page's, each once. */
  lemma MergeSpec(links: seq<Candidate>, found: seq<Anchor>)
    ensures var r := Merge(links, found);
      && |r| >= |links| && r[..|links|] == links
      && (NoDup(Urls(links)) ==> NoDup(Urls(r)))
      && (forall u :: u in Urls(r) <==> u in Urls(links) || u in PageUrls(found))
      && (forall k :: |links| <= k < |r| ==>
            r[k].url !in Urls(links) && r[k].url in PageUrls(found) &&
            r[k].title == FirstTitle(found, r[k].url))
      && (forall k1, k2 :: |links| <= k1 < k2 < |r| ==>
            FirstIndex(PageUrls(found), r[k1].url) < FirstIndex(PageUrls(found), r[k2].url))
      && NoDup(Urls(r)[|links|..])
  {
    MergeKeeps(links, found);
    MergeUrls(links, found);
    MergeAddsFresh(links, found);
    MergeTitles(links, found);
    MergeOrder(links, found);
  }

  /** The URLs a page adds are its URLs that were not there before. */
  lemma MergeAddedUrls(links: seq<Candidate>, found: seq<Anchor>)
    ensures |Merge(links, found)| >= |links|
    ensures (set u | u in Urls(Merge(links, found))[|links|..]) == PageUrlSet(found) - UrlSet(links)
  {
    MergeAddedFresh(links, found);
    MergeAddedAll(links, found);
  }

  /** What a page adds is new and comes from the page. */
  lemma MergeAddedFresh(links: seq<Candidate>, found: seq<Anchor>)
    ensures |Merge(links, found)| >= |links|
    ensures forall u :: u in Urls(Merge(links, found))[|links|..] ==> u in PageUrls(found) && u !in Urls(links)
  {
    var r := Merge(links, found);
    MergeKeeps(links, found);
    MergeUrls(links, found);
    MergeAddsFresh(links, found);
    var n, us := |links|, Urls(r);
    forall u | u in us[n..] ensures u in PageUrls(found) && u !in Urls(links) {
      var i :| 0 <= i < |us| - n && us[n..][i] == u;
      assert us[n + i] == r[n + i].url == u;
      assert u in us;
    }
  }

  /** Every new URL of the page is added. */
  lemma MergeAddedAll(links: seq<Candidate>, found: seq<Anchor>)
    ensures |Merge(links, found)| >= |links|
    ensures forall u :: u in PageUrls(found) && u !in Urls(links) ==> u in Urls(Merge(links, found))[|links|..]
  {
    var r := Merge(links, found);
    MergeKeeps(links, found);
    MergeUrls(links, found);
    var n, us := |links|, Urls(r);
    assert us[..n] == Urls(links);
    forall u | u in PageUrls(found) && u !in Urls(links) ensures u in us[n..] {
      assert u in us;
      var k :| 0 <= k < |us| && us[k] == u;
      assert us[n..][k - n] == u;
    }
  }

  /** The number of entries a page adds is the number of its distinct URLs
      that were not in `all_links` before. */
  lemma MergeGrowth(links: seq<Candidate>, found: seq<Anchor>)
    ensures |Merge(links, found)| - |links| == |PageUrlSet(found) - UrlSet(links)|
  {
    var r := Merge(links, found);
    MergeAddedUrls(links, found);
    MergeAddsFresh(links, found);
    NoDupCard(Urls(r)[|links|..]);
  }

  /** Merging two pages one after the other is merging their anchors together. */
  lemma {:induction false} MergeAppend(links: seq<Candidate>, a: seq<Anchor>, b: seq<Anchor>)
    ensures Merge(Merge(links, a), b) == Merge(links, a + b)
    decreases |b|
  {
    if |b| > 0 {
      MergeAppend(links, a, b[..|b| - 1]);
      assert (a + b)[..|a + b| - 1] == a + b[..|b| - 1];
    } else {
      assert a + b == a;
    }
  }

  /** The page-link loop of `get_class_list`: adds the page's anchors to
      `all_links` and counts the URLs that were new. */
  method AddPageLinks(allLinks: seq<Candidate>, found: seq<Anchor>) returns (links: seq<Candidate>, newLinks: nat)
    ensures links == Merge(allLinks, found)
    ensures newLinks == |PageUrlSet(found) - UrlSet(allLinks)|
  {
    links, newLinks := allLinks, 0;
    var i := 0;
    while i < |found|
      invariant 0 <= i <= |found|
      invariant links == Merge(allLinks, found[..i])
      invariant newLinks == |links| - |allLinks|
    {
      var a := found[i];
      var urlFull := Resolve(a.href);
      if urlFull !in Urls(links) {
        links := links + [Candidate(urlFull, a.text)];
        newLinks := newLinks + 1;
      }
      assert found[..i + 1][..i] == found[..i];
      i := i + 1;
    }
    assert found[..i] == found;
    MergeGrowth(allLinks, found);
  }

  /** `next_btn_visible` after one probe: a probe that finds no button leaves
      the previous attempt's value in place. */
  function ProbeNext(prev: bool, p: NextProbe): bool {
    match p
    case NoButton => prev
    case Button(enabled) => enabled
    case ProbeFailed => false
  }

  /** `next_btn_visible` after the first `k` attempts (it starts `False`). */
  function NextAfter(attempts: seq<Attempt>, k: nat): bool
    requires k <= |attempts|
  {
    if k == 0 then false else ProbeNext(NextAfter(attempts, k - 1), attempts[k - 1].probe)
  }

  /** Attempt `k` saw an enabled next button but fewer than `FullPage` classes. */
  predicate Underfilled(attempts: seq<Attempt>, k: nat)
    requires k < |attempts|
  {
    NextAfter(attempts, k + 1) && |attempts[k].anchors| < FullPage
  }

  /** The outcome of the validation loop for one page: the anchors kept, the
      final next-button flag, how many attempts were made and how many reloads. */
  datatype PageScan = PageScan(found: seq<Anchor>, nextVisible: bool, attempts: nat, reloads: nat)

  function ScanFrom(attempts: seq<Attempt>, retry: nat, next: bool, reloads: nat): PageScan
    requires retry < MaxRetries <= |attempts|
    decreases MaxRetries - retry
  {
    var a := attempts[retry];
    var next' := ProbeNext(next, a.probe);
    if next' && |a.anchors| < FullPage then
      var retry' := retry + 1;
      var reloads' := if retry' == ReloadAt then reloads + 1 else reloads;
      if retry' < MaxRetries then ScanFrom(attempts, retry', next', reloads')
      else PageScan(a.anchors, next', retry', reloads')
    else PageScan(a.anchors, next', retry + 1, reloads)
  }

  /** The validation loop of `get_class_list` for one page. */
  function Scan(attempts: seq<Attempt>): PageScan
    requires MaxRetries <= |attempts|
  {
    ScanFrom(attempts, 0, false, 0)
  }

  lemma {:induction false} ScanFromSpec(attempts: seq<Attempt>, retry: nat, next: bool, reloads: nat)
    requires retry < MaxRetries <= |attempts|
    requires next == NextAfter(attempts, retry)
    requires reloads == (if retry >= ReloadAt then 1 else 0)
    requires forall k :: 0 <= k < retry ==> Underfilled(attempts, k)
    ensures var s := ScanFrom(attempts, retry, next, reloads);
      && retry < s.attempts <= MaxRetries
      && (forall k :: 0 <= k < s.attempts - 1 ==> Underfilled(attempts, k))
      && (s.attempts < MaxRetries ==> !Underfilled(attempts, s.attempts - 1))
      && s.found == attempts[s.attempts - 1].anchors
      && s.nextVisible == NextAfter(attempts, s.attempts)
      && s.reloads == (if s.attempts == MaxRetries then 1 else 0)
    decreases MaxRetries - retry
  {
    var a := attempts[retry];
    var next' := ProbeNext(next, a.probe);
    assert next' == NextAfter(attempts, retry + 1);
    if next' && |a.anchors| < FullPage && retry + 1 < MaxRetries {
      var reloads' := if retry + 1 == ReloadAt then reloads + 1 else reloads;
      ScanFromSpec(attempts, retry + 1, next', reloads');
    }
  }

  /** The retry policy: between one and three attempts; every attempt but the
      last saw an enabled next button and fewer than 15 classes; the loop
      stops early only on an attempt that did not; the page keeps the last
      attempt's anchors; and there is one reload, made before the third
      attempt, exactly when a third attempt is made. */
  lemma ScanSpec(attempts: seq<Attempt>)
    requires MaxRetries <= |attempts|
    ensures var s := Scan(attempts);
      && 1 <= s.attempts <= MaxRetries
      && (forall k :: 0 <= k < s.attempts - 1 ==> Underfilled(attempts, k))
      && (s.attempts < MaxRetries ==> !Underfilled(attempts, s.attempts - 1))
      && s.found == attempts[s.attempts - 1].anchors
      && s.nextVisible == NextAfter(attempts, s.attempts)
      && s.reloads <= 1 && (s.reloads == 1 <==> s.attempts == MaxRetries)
  {
    ScanFromSpec(attempts, 0, false, 0);
  }

  /** The validation loop of `get_class_list`: reads the page until it looks
      complete or the attempts run out. */
  method ScanPage(attempts: seq<Attempt>) returns (scan: PageScan)
    requires MaxRetries <= |attempts|
    ensures scan == Scan(attempts)
  {
    var retryCount, reloads := 0, 0;
    var found: seq<Anchor> := [];
    var nextBtnVisible := false;
    while retryCount < MaxRetries
      invariant retryCount <= MaxRetries
      invariant retryCount < MaxRetries ==> ScanFrom(attempts, retryCount, nextBtnVisible, reloads) == Scan(attempts)
      invariant retryCount == MaxRetries ==> PageScan(found, nextBtnVisible, retryCount, reloads) == Scan(attempts)
    {
      var attempt := attempts[retryCount];
      found := attempt.anchors;
      nextBtnVisible := ProbeNext(nextBtnVisible, attempt.probe);
      if nextBtnVisible && |found| < FullPage {
        retryCount := retryCount + 1;
        if retryCount == ReloadAt {
          reloads := reloads + 1;
        }
      } else {
        return PageScan(found, nextBtnVisible, retryCount + 1, reloads);
      }
    }
    scan := PageScan(found, nextBtnVisible, retryCount, reloads);
  }

  /** Why the crawl ended: no enabled next button, the click raised, or the
      snapshot of the catalog has no further page. */
  datatype Stop = LastPage | ClickError | SnapshotEnded

  /** The crawl's result: the candidates, how many pages were scanned, the
      final `page_num`, the page numbers after which the content did not
      appear to change, and why it stopped. */
  datatype CrawlResult = CrawlResult(candidates: seq<Candidate>, scanned: nat, pageNum: nat,
                                     stuck: seq<nat>, stop: Stop)

  predicate Observable(pages: seq<PageView>) {
    forall i :: 0 <= i < |pages| ==> MaxRetries <= |pages[i].attempts|
  }

  function CrawlFrom(pages: seq<PageView>, i: nat, links: seq<Candidate>, pageNum: nat, stuck: seq<nat>): CrawlResult
    requires Observable(pages) && i <= |pages|
    decreases |pages| - i
  {
    if i == |pages| then CrawlResult(links, i, pageNum, stuck, SnapshotEnded)
    else
      var s := Scan(pages[i].attempts);
      var links' := Merge(links, s.found);
      if !s.nextVisible then CrawlResult(links', i + 1, pageNum, stuck, LastPage)
      else match pages[i].click
        case ClickFailed => CrawlResult(links', i + 1, pageNum, stuck, ClickError)
        case Clicked(changed) =>
          CrawlFrom(pages, i + 1, links', pageNum + 1, if changed then stuck else stuck + [pageNum])
  }

  /** `get_class_list` over a snapshot of the catalog. */
  function Crawl(pages: seq<PageView>): CrawlResult
    requires Observable(pages)
  {
    CrawlFrom(pages, 0, [], 1, [])
  }

  /** The anchors kept from the first `n` pages, in crawl order. */
  function KeptAnchors(pages: seq<PageView>, n: nat): seq<Anchor>
    requires Observable(pages) && n <= |pages|
  {
    if n == 0 then [] else KeptAnchors(pages, n - 1) + Scan(pages[n - 1].attempts).found
  }

  /** Page `k` had an enabled next button and the click on it went through. */
  predicate Advanced(pages: seq<PageView>, k: nat)
    requires Observable(pages) && k < |pages|
  {
    Scan(pages[k].attempts).nextVisible && pages[k].click.Clicked?
  }

  lemma {:induction false} CrawlFromCandidates(pages: seq<PageView>, i: nat, links: seq<Candidate>, pageNum: nat, stuck: seq<nat>)
    requires Observable(pages) && i <= |pages|
    requires links == Merge([], KeptAnchors(pages, i))
    ensures var r := CrawlFrom(pages, i, links, pageNum, stuck);
      && i <= r.scanned <= |pages| && (i < |pages| ==> i < r.scanned)
      && r.candidates == Merge([], KeptAnchors(pages, r.scanned))
    decreases |pages| - i
  {
    if i < |pages| {
      var s := Scan(pages[i].attempts);
      var links' := Merge(links, s.found);
      MergeAppend([], KeptAnchors(pages, i), s.found);
      assert links' == Merge([], KeptAnchors(pages, i + 1));
      if s.nextVisible && pages[i].click.Clicked? {
        var changed := pages[i].click.changed;
        CrawlFromCandidates(pages, i + 1, links', pageNum + 1, if changed then stuck else stuck + [pageNum]);
      }
    }
  }

  lemma {:induction false} CrawlFromStops(pages: seq<PageView>, i: nat, links: seq<Candidate>, pageNum: nat, stuck: seq<nat>)
    requires Observable(pages) && i <= |pages|
    requires pageNum == i + 1
    requires forall k :: 0 <= k < i ==> Advanced(pages, k)
    ensures var r := CrawlFrom(pages, i, links, pageNum, stuck);
      && i <= r.scanned <= |pages|
      && (forall k :: 0 <= k < r.scanned - 1 ==> Advanced(pages, k))
      && (r.stop == SnapshotEnded <==> r.scanned == |pages| && (r.scanned == 0 || Advanced(pages, r.scanned - 1)))
      && (r.stop == LastPage ==> r.scanned > 0 && !Scan(pages[r.scanned - 1].attempts).nextVisible)
      && (r.stop == ClickError ==> r.scanned > 0 && Scan(pages[r.scanned - 1].attempts).nextVisible
                                   && pages[r.scanned - 1].click.ClickFailed?)
      && r.pageNum == (if r.stop == SnapshotEnded then r.scanned + 1 else r.scanned)
    decreases |pages| - i
  {
    if i < |pages| {
      var s := Scan(pages[i].attempts);
      var links' := Merge(links, s.found);
      if s.nextVisible && pages[i].click.Clicked? {
        var changed := pages[i].click.changed;
        assert Advanced(pages, i);
        CrawlFromStops(pages, i + 1, links', pageNum + 1, if changed then stuck else stuck + [pageNum]);
      } else {
        assert CrawlFrom(pages, i, links, pageNum, stuck).scanned == i + 1;
        assert !Advanced(pages, i);
      }
    }
  }

  /** The crawl's candidates: all anchors kept from the scanned pages merged
      in order, so their URLs are unique, each titled by its first anchor. */
  lemma CrawlCandidates(pages: seq<PageView>)
    requires Observable(pages)
    ensures var r := Crawl(pages);
      && r.scanned <= |pages| && (|pages| > 0 ==> r.scanned >= 1)
      && r.candidates == Merge([], KeptAnchors(pages, r.scanned))
      && NoDup(Urls(r.candidates))
  {
    CrawlFromCandidates(pages, 0, [], 1, []);
    var r := CrawlFrom(pages, 0, [], 1, []);
    MergeAddsFresh([], KeptAnchors(pages, r.scanned));
    assert Urls([]) == [];
  }

  /** Where the crawl stops: at the first page whose next button is not
      enabled or whose click raised (or when the snapshot ends); every
      earlier page advanced, and `page_num` counts the successful clicks
      whether or not a content change was seen. */
  lemma CrawlStops(pages: seq<PageView>)
    requires Observable(pages)
    ensures var r := Crawl(pages);
      && r.scanned <= |pages|
      && (forall k :: 0 <= k < r.scanned - 1 ==> Advanced(pages, k))
      && (r.stop == SnapshotEnded <==> r.scanned == |pages| && (r.scanned == 0 || Advanced(pages, r.scanned - 1)))
      && (r.stop == LastPage ==> r.scanned > 0 && !Scan(pages[r.scanned - 1].attempts).nextVisible)
      && (r.stop == ClickError ==> r.scanned > 0 && Scan(pages[r.scanned - 1].attempts).nextVisible
                                   && pages[r.scanned - 1].click.ClickFailed?)
      && r.pageNum == (if r.stop == SnapshotEnded then r.scanned + 1 else r.scanned)
  {
    CrawlFromStops(pages, 0, [], 1, []);
  }

  /** `get_class_list`: scans page after page, merging each page's anchors
      into `all_links`, and follows the next button while it is enabled. */
  method CrawlCatalog(pages: seq<PageView>) returns (result: CrawlResult)
    requires Observable(pages)
    ensures result == Crawl(pages)
  {
    var allLinks: seq<Candidate> := [];
    var pageNum := 1;
    var stuck: seq<nat> := [];
    var i := 0;
    while i < |pages|
      invariant 0 <= i <= |pages|
      invariant CrawlFrom(pages, i, allLinks, pageNum, stuck) == Crawl(pages)
      decreases |pages| - i
    {
      var scan := ScanPage(pages[i].attempts);
      var newLinks;
      allLinks, newLinks := AddPageLinks(allLinks, scan.found);
      if !scan.nextVisible {
        return CrawlResult(allLinks, i + 1, pageNum, stuck, LastPage);
      }
      match pages[i].click
      case ClickFailed =>
        return CrawlResult(allLinks, i + 1, pageNum, stuck, ClickError);
      case Clicked(changed) =>
        if !changed {
          stuck := stuck + [pageNum];
        }
        pageNum := pageNum + 1;
      i := i + 1;
    }
    result := CrawlResult(allLinks, i, pageNum, stuck, SnapshotEnded);
  }
}
