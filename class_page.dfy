/** Detail extraction of `get_class_details` (src/scraper.py) over an
    abstract parsed class page: the HTML parser and the browser are replaced
    by the parts of the page the extraction reads. */
module ClassPage {
  import opened Text
  import opened Wrappers
  import opened Catalog

  /** `<meta name="description">`, with its `content` attribute if it has one. */
  datatype Meta = Meta(content: Option<String>)

  /** An `h2`/`h3`/`h4`/`div` element, in document order: its stripped text
      and the item texts of the first `ul` after it, if there is one. */
  datatype Block = Block(text: String, nextList: Option<seq<String>>)

  /** A table cell: its stripped text, its chip labels and its link texts. */
  datatype Cell = Cell(text: String, chips: seq<String>, links: seq<String>)

  /** What the extraction reads from a class page. */
  datatype Page = Page(
    h1: Option<String>,      // text of the first `h1`
    meta: Option<Meta>,      // the description meta element
    blocks: seq<Block>,      // candidate "Key Learnings" headers
    tagsHeading: bool,       // an `h2`/`h3` whose text holds "Tags"
    rows: seq<seq<Cell>>)    // every `tr`, as its `td` cells

  /** Opening the class URL: the page, or the navigation error it raised. */
  datatype Visit = Loaded(page: Page) | NavigationError(reason: String)

  datatype Tags = Tags(topics: seq<String>, industries: seq<String>, products: seq<String>)

  /** The exception recorded in a record's `error` field. */
  datatype Fault =
    | Navigation(reason: String)  // raised by `goto`
    | MissingContent              // `KeyError` from a description meta without `content`
    | UnboundValues               // `NameError`: a tag row used `values` before any row set it

  /** A class record. Fields the extraction did not reach are `None`. */
  datatype Record = Record(
    url: String,
    title: String,
    summary: Option<String>,
    keyLearnings: Option<seq<String>>,
    speakers: Option<seq<String>>,
    tags: Option<Tags>,
    error: Option<Fault>)

  /** `class_item.copy()` */
  function FromCandidate(c: Candidate): Record {
    Record(c.url, c.title, None, None, None, None, None)
  }

  predicate IsKeyLearningHeader(b: Block) {
    Contains(Lower(b.text), "key learning")
  }

  /** The items under the first "key learning" header; none if there is no
      such header or no list after it. */
  function KeyLearnings(blocks: seq<Block>): seq<String> {
    if |blocks| == 0 then []
    else if IsKeyLearningHeader(blocks[0]) then blocks[0].nextList.GetOr([])
    else KeyLearnings(blocks[1..])
  }

  /** Only the first matching header counts. */
  lemma {:induction false} KeyLearningsSpec(blocks: seq<Block>)
    ensures (forall i :: 0 <= i < |blocks| ==> !IsKeyLearningHeader(blocks[i])) ==> KeyLearnings(blocks) == []
    ensures forall i :: 0 <= i < |blocks| && IsKeyLearningHeader(blocks[i]) &&
                        (forall j :: 0 <= j < i ==> !IsKeyLearningHeader(blocks[j])) ==>
                        KeyLearnings(blocks) == blocks[i].nextList.GetOr([])
  {
    if |blocks| > 0 {
      KeyLearningsSpec(blocks[1..]);
      forall i | 0 < i < |blocks| && IsKeyLearningHeader(blocks[i]) &&
                 (forall j :: 0 <= j < i ==> !IsKeyLearningHeader(blocks[j]))
        ensures KeyLearnings(blocks) == blocks[i].nextList.GetOr([])
      {
        assert blocks[1..][i - 1] == blocks[i];
        assert forall j :: 0 <= j < i - 1 ==> blocks[1..][j] == blocks[j + 1];
      }
    }
  }

  /** Which tag list a row label feeds: the first of "Topics", "Industries",
      "Product" that it contains (case-sensitive). */
  datatype TagKind = Topic | Industry | Product

  function Category(name: String): Option<TagKind> {
    if Contains(name, "Topics") then Some(Topic)
    else if Contains(name, "Industries") then Some(Industry)
    else if Contains(name, "Product") then Some(Product)
    else None
  }

  /** The values a second cell supplies by itself: its chips, else its links,
      else its text when that is not empty; nothing otherwise. */
  function OwnValues(cell: Cell): Option<seq<String>> {
    if |cell.chips| > 0 then Some(cell.chips)
    else if |cell.links| > 0 then Some(cell.links)
    else if |cell.text| > 0 then Some([cell.text])
    else None
  }

  function Extend(tags: Tags, k: TagKind, values: seq<String>): Tags {
    match k
    case Topic => tags.(topics := tags.topics + values)
    case Industry => tags.(industries := tags.industries + values)
    case Product => tags.(products := tags.products + values)
  }

  /** The tag loop's state: the lists so far and the local `values`, which is
      unbound until some row assigns it and is never reset between rows. */
  datatype TagState = TagState(tags: Tags, values: Option<seq<String>>)

  /** One table row; `None` when the row reads `values` while it is unbound. */
  function TagRow(st: TagState, row: seq<Cell>): Option<TagState> {
    if |row| < 2 then Some(st)
    else
      var values := if OwnValues(row[1]).Some? then OwnValues(row[1]) else st.values;
      match Category(row[0].text)
      case None => Some(TagState(st.tags, values))
      case Some(k) =>
        if values.None? then None
        else Some(TagState(Extend(st.tags, k, values.value), values))
  }

  /** The tag loop over the first rows of the table. */
  function TagRows(rows: seq<seq<Cell>>): Option<TagState> {
    if |rows| == 0 then Some(TagState(Tags([], [], []), None))
    else
      match TagRows(rows[..|rows| - 1])
      case None => None
      case Some(st) => TagRow(st, rows[|rows| - 1])
  }

  /** Row `i` is a table row with a label and a value cell. */
  predicate Wide(rows: seq<seq<Cell>>, i: nat)
    requires i < |rows|
  {
    |rows[i]| >= 2
  }

  /** The category row `i` feeds, if any. */
  function RowKind(rows: seq<seq<Cell>>, i: nat): Option<TagKind>
    requires i < |rows|
  {
    if Wide(rows, i) then Category(rows[i][0].text) else None
  }

  /** The values in effect at row `i`: those of the nearest wide row at or
      before `i` whose value cell supplies some. */
  function Effective(rows: seq<seq<Cell>>, i: nat): Option<seq<String>>
    requires i < |rows|
  {
    if Wide(rows, i) && OwnValues(rows[i][1]).Some? then OwnValues(rows[i][1])
    else if i == 0 then None
    else Effective(rows, i - 1)
  }

  /** What the rows before `n` contribute to one tag list. */
  function Gathered(rows: seq<seq<Cell>>, n: nat, k: TagKind): seq<String>
    requires n <= |rows|
  {
    if n == 0 then []
    else Gathered(rows, n - 1, k) +
         (if RowKind(rows, n - 1) == Some(k) && Effective(rows, n - 1).Some?
          then Effective(rows, n - 1).value else [])
  }

  function TagList(tags: Tags, k: TagKind): seq<String> {
    match k
    case Topic => tags.topics
    case Industry => tags.industries
    case Product => tags.products
  }

  /** Some routed row reads `values` before any row has set it. */
  predicate Unbound(rows: seq<seq<Cell>>, n: nat)
    requires n <= |rows|
  {
    exists i :: 0 <= i < n && RowKind(rows, i).Some? && Effective(rows, i).None?
  }

  /** The values bound before row `n` is read. */
  function Before(rows: seq<seq<Cell>>, n: nat): Option<seq<String>>
    requires n <= |rows|
  {
    if n == 0 then None else Effective(rows, n - 1)
  }

  /** One more row: the loop fails at it exactly when it is routed and no
      values are in effect; otherwise it extends its list by those values. */
  lemma TagRowsStep(rows: seq<seq<Cell>>, n: nat, st: TagState)
    requires 0 < n <= |rows|
    requires TagRows(rows[..n - 1]) == Some(st)
    requires st.values == Before(rows, n - 1)
    requires forall k :: TagList(st.tags, k) == Gathered(rows, n - 1, k)
    ensures TagRows(rows[..n]).None? <==> RowKind(rows, n - 1).Some? && Effective(rows, n - 1).None?
    ensures TagRows(rows[..n]).Some? ==>
              TagRows(rows[..n]).value.values == Before(rows, n)
              && forall k :: TagList(TagRows(rows[..n]).value.tags, k) == Gathered(rows, n, k)
  {
    var i := n - 1;
    assert rows[..n][..i] == rows[..i];
    var r := TagRow(st, rows[i]);
    assert TagRows(rows[..n]) == r;
    if Wide(rows, i) {
      var values := if OwnValues(rows[i][1]).Some? then OwnValues(rows[i][1]) else st.values;
      assert values == Effective(rows, i);
      if r.Some? {
        forall k ensures TagList(r.value.tags, k) == Gathered(rows, n, k) {
          var added := if RowKind(rows, i) == Some(k) && values.Some? then values.value else [];
          assert Gathered(rows, n, k) == Gathered(rows, i, k) + added;
          match RowKind(rows, i)
          case None =>
            assert r.value.tags == st.tags;
          case Some(j) =>
            assert r.value.tags == Extend(st.tags, j, values.value);
            ExtendList(st.tags, j, values.value, k);
        }
      }
    }
  }

  /** Extending one list leaves the others alone. */
  lemma ExtendList(tags: Tags, j: TagKind, values: seq<String>, k: TagKind)
    ensures TagList(Extend(tags, j, values), k) == TagList(tags, k) + (if j == k then values else [])
  {
  }

  lemma {:induction false} TagRowsPrefix(rows: seq<seq<Cell>>, n: nat)
    requires n <= |rows|
    ensures TagRows(rows[..n]).None? <==> Unbound(rows, n)
    ensures TagRows(rows[..n]).Some? ==>
              TagRows(rows[..n]).value.values == Before(rows, n)
              && forall k :: TagList(TagRows(rows[..n]).value.tags, k) == Gathered(rows, n, k)
  {
    if n == 0 {
      assert rows[..0] == [];
    } else {
      TagRowsPrefix(rows, n - 1);
      assert rows[..n][..n - 1] == rows[..n - 1];
      var prev := TagRows(rows[..n - 1]);
      if prev.None? {
        assert TagRows(rows[..n]).None?;
        var j :| 0 <= j < n - 1 && RowKind(rows, j).Some? && Effective(rows, j).None?;
        assert Unbound(rows, n);
      } else {
        TagRowsStep(rows, n, prev.value);
        if TagRows(rows[..n]).None? {
          assert Unbound(rows, n);
        } else {
          forall j | 0 <= j < n && RowKind(rows, j).Some? ensures Effective(rows, j).Some? {
            if j < n - 1 {
              assert !Unbound(rows, n - 1);
            }
          }
        }
      }
    }
  }

  /** The tag table's contract: the loop fails with `NameError` exactly when
      a routed row has no chips, links or text of its own and no earlier row
      has set `values`; otherwise every list is, row by row, the values in
      effect at each row routed to it, where a row with an empty value cell
      reuses the values of the last row that had some. */
  lemma TagRowsSpec(rows: seq<seq<Cell>>)
    ensures TagRows(rows).None? <==> Unbound(rows, |rows|)
    ensures TagRows(rows).Some? ==>
              var tags := TagRows(rows).value.tags;
              && tags.topics == Gathered(rows, |rows|, Topic)
              && tags.industries == Gathered(rows, |rows|, Industry)
              && tags.products == Gathered(rows, |rows|, Product)
  {
    TagRowsPrefix(rows, |rows|);
    assert rows[..|rows|] == rows;
    if TagRows(rows).Some? {
      var tags := TagRows(rows).value.tags;
      assert TagList(tags, Topic) == Gathered(rows, |rows|, Topic);
      assert TagList(tags, Industry) == Gathered(rows, |rows|, Industry);
      assert TagList(tags, Product) == Gathered(rows, |rows|, Product);
    }
  }

  /** A routed row with an empty value cell reuses the previous row's values,
      and fails when no earlier row has set any. */
  lemma StaleValuesExample()
    ensures var ai := [Cell("", ["AI"], [])];
      TagRows([[Cell("Topics", [], [])] + ai, [Cell("Industries", [], []), Cell("", [], [])]])
        == Some(TagState(Tags(["AI"], ["AI"], []), Some(["AI"])))
    ensures TagRows([[Cell("Topics", [], []), Cell("", [], [])]]).None?
  {
    assert Contains("Topics", "Topics") by { assert "Topics" <= "Topics"[0..]; }
    assert Contains("Industries", "Industries") by { assert "Industries" <= "Industries"[0..]; }
    assert !Contains("Industries", "Topics") by {
      forall i | 0 <= i <= 10 ensures !("Topics" <= "Industries"[i..]) {
        assert "Industries"[i..] == [] || "Industries"[i] != 'T';
      }
    }
    var rows: seq<seq<Cell>> := [[Cell("Topics", [], []), Cell("", ["AI"], [])], [Cell("Industries", [], []), Cell("", [], [])]];
    assert rows[..1] == [rows[0]] && rows[..1][..0] == [];
    var st0 := TagState(Tags([], [], []), None);
    var st1 := TagState(Tags(["AI"], [], []), Some(["AI"]));
    assert rows[0][0].text == "Topics" && Category("Topics") == Some(Topic);
    assert OwnValues(rows[0][1]) == Some(["AI"]);
    assert Extend(st0.tags, Topic, ["AI"]) == st1.tags by { assert [] + ["AI"] == ["AI"]; }
    assert TagRow(st0, rows[0]) == Some(st1);
    assert TagRows(rows[..1]) == Some(st1);
    assert Category(rows[1][0].text) == Some(Industry);
    assert Extend(st1.tags, Industry, ["AI"]) == Tags(["AI"], ["AI"], []) by { assert [] + ["AI"] == ["AI"]; }
    assert TagRow(st1, rows[1]) == Some(TagState(Tags(["AI"], ["AI"], []), Some(["AI"])));
    var one: seq<seq<Cell>> := [[Cell("Topics", [], []), Cell("", [], [])]];
    assert one[..0] == [];
    assert TagRow(st0, one[0]).None?;
  }

  /** `get_class_details` on a visit, as a value. */
  function Details(c: Candidate, visit: Visit): Record {
    var data := FromCandidate(c);
    match visit
    case NavigationError(reason) => data.(error := Some(Navigation(reason)))
    case Loaded(page) =>
      var data := if page.h1.Some? then data.(title := page.h1.value) else data;
      if page.meta == Some(Meta(None)) then data.(error := Some(MissingContent))
      else
        var summary := if page.meta.Some? then page.meta.value.content.value else "";
        var data := data.(summary := Some(summary), keyLearnings := Some(KeyLearnings(page.blocks)),
                          speakers := Some([]));
        if !page.tagsHeading then data.(tags := Some(Tags([], [], [])))
        else match TagRows(page.rows)
          case None => data.(error := Some(UnboundValues))
          case Some(st) => data.(tags := Some(st.tags))
  }

  /** The detail fetcher's contract: the record keeps the candidate's URL,
      and its title unless the page has an `h1`; it carries an error exactly
      when navigation failed, the description meta has no `content`, or the
      tag loop hit an unbound `values`, and then has no `tags`; without an
      error every field is set: the description or "", the first key-learning
      list, no speakers, and empty tag lists when there is no tags heading. */
  lemma DetailsSpec(c: Candidate, visit: Visit)
    ensures var r := Details(c, visit);
      && r.url == c.url
      && r.title == (if visit.Loaded? && visit.page.h1.Some? then visit.page.h1.value else c.title)
      && (r.error.Some? <==>
            || visit.NavigationError?
            || visit.page.meta == Some(Meta(None))
            || (visit.page.tagsHeading && Unbound(visit.page.rows, |visit.page.rows|)))
      && (r.error.Some? ==> r.tags.None?)
      && (visit.NavigationError? ==> r.error == Some(Navigation(visit.reason)) && r.summary.None?)
      && (r.error.None? ==>
            && r.summary == Some(if visit.page.meta.Some? then visit.page.meta.value.content.value else "")
            && r.keyLearnings == Some(KeyLearnings(visit.page.blocks))
            && r.speakers == Some([])
            && r.tags.Some?
            && (!visit.page.tagsHeading ==> r.tags == Some(Tags([], [], [])))
            && (visit.page.tagsHeading ==>
                  r.tags.value.topics == Gathered(visit.page.rows, |visit.page.rows|, Topic)
                  && r.tags.value.industries == Gathered(visit.page.rows, |visit.page.rows|, Industry)
                  && r.tags.value.products == Gathered(visit.page.rows, |visit.page.rows|, Product)))
  {
    if visit.Loaded? {
      TagRowsSpec(visit.page.rows);
    }
  }

  /** The first key-learning header's list, as the extraction loop finds it. */
  method FindKeyLearnings(blocks: seq<Block>) returns (keyLearnings: seq<String>)
    ensures keyLearnings == KeyLearnings(blocks)
  {
    keyLearnings := [];
    var i := 0;
    while i < |blocks|
      invariant 0 <= i <= |blocks|
      invariant KeyLearnings(blocks) == KeyLearnings(blocks[i..])
    {
      var header := blocks[i];
      if Contains(Lower(header.text), "key learning") {
        keyLearnings := header.nextList.GetOr([]);
        return;
      }
      assert blocks[i..][1..] == blocks[i + 1..];
      i := i + 1;
    }
  }

  /** The tag loop of the extraction: routes each wide row's values into
      the tag lists; `None` when a routed row reads an unbound `values`. */
  method CollectTags(rows: seq<seq<Cell>>) returns (tags: Option<Tags>)
    ensures tags == (if TagRows(rows).None? then None else Some(TagRows(rows).value.tags))
  {
    var topics, industries, products: seq<String> := [], [], [];
    var values: Option<seq<String>> := None;
    var i := 0;
    while i < |rows|
      invariant 0 <= i <= |rows|
      invariant TagRows(rows[..i]) == Some(TagState(Tags(topics, industries, products), values))
    {
      var cells := rows[i];
      assert rows[..i + 1][..i] == rows[..i];
      if |cells| >= 2 {
        var name := cells[0].text;
        if |cells[1].chips| > 0 {
          values := Some(cells[1].chips);
        } else if |cells[1].links| > 0 {
          values := Some(cells[1].links);
        } else if |cells[1].text| > 0 {
          values := Some([cells[1].text]);
        }
        if Contains(name, "Topics") {
          if values.None? { assert TagRows(rows[..i + 1]).None?; TagRowsNoneStays(rows, i + 1); return None; }
          topics := topics + values.value;
        } else if Contains(name, "Industries") {
          if values.None? { assert TagRows(rows[..i + 1]).None?; TagRowsNoneStays(rows, i + 1); return None; }
          industries := industries + values.value;
        } else if Contains(name, "Product") {
          if values.None? { assert TagRows(rows[..i + 1]).None?; TagRowsNoneStays(rows, i + 1); return None; }
          products := products + values.value;
        }
      }
      i := i + 1;
    }
    assert rows[..i] == rows;
    tags := Some(Tags(topics, industries, products));
  }

  /** Once the loop has failed, later rows do not revive it. */
  lemma {:induction false} TagRowsNoneStays(rows: seq<seq<Cell>>, n: nat)
    requires n <= |rows| && TagRows(rows[..n]).None?
    ensures TagRows(rows).None?
    decreases |rows| - n
  {
    if n < |rows| {
      assert rows[..n + 1][..n] == rows[..n];
      TagRowsNoneStays(rows, n + 1);
    } else {
      assert rows[..n] == rows;
    }
  }

  /** `get_class_details`: copies the candidate, then fills the record field
      by field; the first exception stops the filling and is recorded. */
  method GetClassDetails(c: Candidate, visit: Visit) returns (data: Record)
    ensures data == Details(c, visit)
  {
    data := FromCandidate(c);
    match visit {
      case NavigationError(reason) =>
        data := data.(error := Some(Navigation(reason)));
      case Loaded(page) =>
        if page.h1.Some? {
          data := data.(title := page.h1.value);
        }
        match page.meta {
          case Some(Meta(content)) =>
            if content.None? {
              data := data.(error := Some(MissingContent));
              return;
            }
            data := data.(summary := Some(content.value));
          case None =>
            data := data.(summary := Some(""));
        }
        var keyLearnings := FindKeyLearnings(page.blocks);
        data := data.(keyLearnings := Some(keyLearnings));
        data := data.(speakers := Some([]));
        var tags := Some(Tags([], [], []));
        if page.tagsHeading {
          tags := CollectTags(page.rows);
          if tags.None? {
            data := data.(error := Some(UnboundValues));
            return;
          }
        }
        data := data.(tags := tags);
    }
  }
}
