/** The competitive content brief of `src/services/competitiveAnalysis.js`:
    the search-results feed is reduced to `{title, link, snippet}`, the
    first five results are fetched one by one and measured, and the
    measurements are folded into the brief's `averages` (which, as the code
    is written, are totals).

    The scraper's HTTP answer is the parameter `response` (`None` when the
    request fails or the answer has no `organic_results`); fetching and
    parsing one competitor page is the function `fetch` (`None` when that
    fails). */
module CompetitiveAnalysis {
  import opened Wrappers
  import opened Text

  /** One entry of the scraper's `organic_results`; fields other than these
      three are dropped by the mapping. */
  datatype OrganicResult = OrganicResult(title: string, link: string, snippet: string, position: Option<int>)

  /** One entry of `analyzeSERP`'s result. */
  datatype SerpEntry = SerpEntry(title: string, link: string, snippet: string)

  /** What the parser reads from a competitor page: the text of `<title>`, the
      texts of its h1/h2/h3 elements, the text of `<body>`, and the numbers of
      `<img>`, `<a>` and `<p>` elements. */
  datatype ParsedPage = ParsedPage(
    title: string,
    headings: seq<string>,
    bodyText: string,
    imageCount: nat,
    anchorCount: nat,
    paragraphCount: nat)

  /** `extractPageData`'s record. */
  datatype PageData = PageData(
    title: string,
    headings: seq<string>,
    wordCount: nat,
    images: nat,
    links: nat,
    paragraphs: nat)

  /** `{title: result.title, url: result.link, ...pageData}`: the spread comes
      last, so the `title` the entry keeps is the page's own `<title>`. */
  datatype Competitor = Competitor(
    title: string,
    url: string,
    headings: seq<string>,
    wordCount: nat,
    images: nat,
    links: nat,
    paragraphs: nat)

  datatype Averages = Averages(wordCount: nat, headings: nat, images: nat)

  datatype ContentBrief = ContentBrief(keyword: string, competitors: seq<Competitor>, averages: Averages)

  const SerpError := "Failed to analyze search results"
  const PageError := "Failed to analyze page"
  const BriefError := "Failed to generate content brief"

  /** How many search results a brief looks at. */
  const TopResults: nat := 5

  // ---------------------------------------------------------------------
  // analyzeSERP

  function ProjectResults(results: seq<OrganicResult>): (r: seq<SerpEntry>)
    ensures |r| == |results|
    ensures forall i :: 0 <= i < |r| ==>
      r[i] == SerpEntry(results[i].title, results[i].link, results[i].snippet)
  {
    if results == [] then []
    else [SerpEntry(results[0].title, results[0].link, results[0].snippet)] + ProjectResults(results[1..])
  }

  /** `analyzeSERP(keyword)`: the organic results, same length and order, each
      cut down to its title, link and snippet; any failure of the request is
      reported as `SerpError`. */
  function AnalyzeSerp(response: Option<seq<OrganicResult>>): (r: Result<seq<SerpEntry>, string>)
    ensures r.Success? <==> response.Some?
    ensures r.Failure? ==> r.error == SerpError
    ensures r.Success? ==> |r.value| == |response.value|
    ensures r.Success? ==> forall i :: 0 <= i < |r.value| ==>
      && r.value[i].title == response.value[i].title
      && r.value[i].link == response.value[i].link
      && r.value[i].snippet == response.value[i].snippet
  {
    match response
    case None => Failure(SerpError)
    case Some(results) => Success(ProjectResults(results))
  }

  // ---------------------------------------------------------------------
  // extractPageData

  /** `extractPageData(url)`: the page's measurements. The word count is the
      number of pieces of the body text split on white-space runs (see
      `SplitWsAround` for where the splits fall), so it is never zero, even
      for an empty body. */
  function ExtractPageData(url: string, fetch: string -> Option<ParsedPage>): (r: Result<PageData, string>)
    ensures r.Success? <==> fetch(url).Some?
    ensures r.Failure? ==> r.error == PageError
    ensures r.Success? ==>
      && r.value.title == fetch(url).value.title
      && r.value.headings == fetch(url).value.headings
      && r.value.wordCount == |SplitWs(fetch(url).value.bodyText)|
      && 1 <= r.value.wordCount <= |fetch(url).value.bodyText| + 1
      && r.value.images == fetch(url).value.imageCount
      && r.value.links == fetch(url).value.anchorCount
      && r.value.paragraphs == fetch(url).value.paragraphCount
  {
    match fetch(url)
    case None => Failure(PageError)
    case Some(p) =>
      SplitWsLength(p.bodyText);
      Success(PageData(p.title, p.headings, |SplitWs(p.bodyText)|, p.imageCount, p.anchorCount, p.paragraphCount))
  }

  /** A split on white space has at most one piece more than the string has
      characters. */
  lemma {:induction false} SplitWsLength(s: string)
    ensures |SplitWs(s)| <= |s| + 1
  {
    if s != [] {
      SplitWsLength(s[1..]);
    }
  }

  function CompetitorOf(result: SerpEntry, page: PageData): Competitor {
    Competitor(page.title, result.link, page.headings, page.wordCount, page.images, page.links, page.paragraphs)
  }

  // ---------------------------------------------------------------------
  // calculateAverages

  /** `calculateAverages(competitors)`: a `reduce` from zero that adds each
      competitor's word count, number of headings and number of images. */
  function CalculateAverages(competitors: seq<Competitor>): (r: Averages)
    ensures competitors == [] ==> r == Averages(0, 0, 0)
    ensures forall i :: 0 <= i < |competitors| ==>
      && competitors[i].wordCount <= r.wordCount
      && |competitors[i].headings| <= r.headings
      && competitors[i].images <= r.images
  {
    if competitors == [] then Averages(0, 0, 0)
    else
      var acc := CalculateAverages(competitors[..|competitors| - 1]);
      var c := competitors[|competitors| - 1];
      Averages(acc.wordCount + c.wordCount, acc.headings + |c.headings|, acc.images + c.images)
  }

  function Plus(x: Averages, y: Averages): Averages {
    Averages(x.wordCount + y.wordCount, x.headings + y.headings, x.images + y.images)
  }

  /** The fold adds up: the result for a list is the sum of the results for
      its two halves, and one competitor contributes its own figures. So the
      fields are the totals of word counts, heading counts and image counts,
      not their means. */
  lemma {:induction false} CalculateAveragesAppend(a: seq<Competitor>, b: seq<Competitor>)
    ensures CalculateAverages(a + b) == Plus(CalculateAverages(a), CalculateAverages(b))
    decreases |b|
  {
    if b == [] {
      assert a + b == a;
    } else {
      var n := |b| - 1;
      var pre, x := b[..n], b[n];
      assert b == pre + [x];
      assert a + b == (a + pre) + [x] by {
        assert a + (pre + [x]) == (a + pre) + [x];
      }
      CalculateAveragesAppend(a, pre);
      CalculateAveragesSnoc(a + pre, x);
      CalculateAveragesSnoc(pre, x);
    }
  }

  lemma CalculateAveragesSnoc(s: seq<Competitor>, c: Competitor)
    ensures CalculateAverages(s + [c]) == Plus(CalculateAverages(s), Averages(c.wordCount, |c.headings|, c.images))
  {
    assert (s + [c])[..|s|] == s;
  }

  lemma CalculateAveragesSingle(c: Competitor)
    ensures CalculateAverages([c]) == Averages(c.wordCount, |c.headings|, c.images)
  {
    assert [c][..0] == [];
  }

  /** Three competitors of 100, 200 and 300 words give `wordCount == 600`:
      their total, three times their mean of 200. */
  lemma CalculateAveragesIsTotal(c1: Competitor, c2: Competitor, c3: Competitor)
    requires c1.wordCount == 100 && c2.wordCount == 200 && c3.wordCount == 300
    ensures CalculateAverages([c1, c2, c3]).wordCount == 600
  {
    CalculateAveragesAppend([c1, c2], [c3]);
    CalculateAveragesAppend([c1], [c2]);
    CalculateAveragesSingle(c1);
    CalculateAveragesSingle(c2);
    CalculateAveragesSingle(c3);
    assert [c1, c2] + [c3] == [c1, c2, c3];
    assert [c1] + [c2] == [c1, c2];
  }

  // ---------------------------------------------------------------------
  // generateContentBrief

  /** The competitors a brief reads: the first five search results. */
  function TopOf(serp: seq<SerpEntry>): (r: seq<SerpEntry>)
    ensures |r| <= TopResults && r <= serp
    ensures |serp| >= TopResults ==> |r| == TopResults
    ensures |serp| < TopResults ==> r == serp
  {
    Take(serp, TopResults)
  }

  /** Every top result's page can be measured. */
  predicate AllPagesExtract(top: seq<SerpEntry>, fetch: string -> Option<ParsedPage>) {
    forall i :: 0 <= i < |top| ==> ExtractPageData(top[i].link, fetch).Success?
  }

  /** `generateContentBrief(keyword)`. A brief is produced exactly when the
      search succeeds and every one of the first five result pages can be
      measured; any other outcome is the single error `BriefError`, with no
      partial brief. A brief echoes the keyword, holds one competitor per top
      result in search order (its link as `url`, the page's figures) and the
      totals of those competitors as `averages`. */
  method GenerateContentBrief(keyword: string, response: Option<seq<OrganicResult>>, fetch: string -> Option<ParsedPage>)
    returns (r: Result<ContentBrief, string>)
    ensures r.Failure? ==> r.error == BriefError
    ensures r.Success? <==> response.Some? && AllPagesExtract(TopOf(AnalyzeSerp(response).value), fetch)
    ensures r.Success? ==>
      var top := TopOf(AnalyzeSerp(response).value);
      && r.value.keyword == keyword
      && |r.value.competitors| == |top| <= TopResults
      && (forall i :: 0 <= i < |top| ==>
            r.value.competitors[i] == CompetitorOf(top[i], ExtractPageData(top[i].link, fetch).value))
      && r.value.averages == CalculateAverages(r.value.competitors)
  {
    var serp := AnalyzeSerp(response);
    if serp.Failure? {
      return Failure(BriefError);
    }
    var top := TopOf(serp.value);
    var competitors: seq<Competitor> := [];
    for i := 0 to |top|
      invariant |competitors| == i
      invariant forall k :: 0 <= k < i ==>
        && ExtractPageData(top[k].link, fetch).Success?
        && competitors[k] == CompetitorOf(top[k], ExtractPageData(top[k].link, fetch).value)
    {
      var pageData := ExtractPageData(top[i].link, fetch);
      if pageData.Failure? {
        return Failure(BriefError);
      }
      competitors := competitors + [CompetitorOf(top[i], pageData.value)];
    }
    return Success(ContentBrief(keyword, competitors, CalculateAverages(competitors)));
  }
}
