/** The bounded site crawler of `src/services/websiteService.js`: a
    depth-first traversal from a base URL that records one page per
    successfully fetched URL, follows only links whose absolute form starts
    with the base URL, skips pages that fail, and stops once `maxPages`
    URLs have been visited.

    Fetching and parsing a page is the map `web`: a URL outside its domain
    is a fetch that fails (network error, non-2xx answer, parse error).
    Resolving an `href` against the base URL (`new URL(href, base).href`)
    is the function `resolve`, `None` where the constructor throws. */
module Website {
  import opened Wrappers
  import opened Text

  type Url = string

  /** An `<a href>` element: its `href` attribute and its text. */
  datatype Anchor = Anchor(href: string, text: string)

  /** What the parser reads from a fetched document: the text of `<title>`,
      the `content` of `<meta name="description">` when present, the text of
      the first `<h1>` (empty when there is none), the text of `<body>` and the
      anchors in document order. */
  datatype Document = Document(
    title: string,
    description: Option<string>,
    h1: string,
    body: string,
    anchors: seq<Anchor>)

  /** A collected internal link. */
  datatype Link = Link(url: Url, text: string)

  /** The page record pushed for every successfully fetched URL. */
  datatype Page = Page(
    url: Url,
    title: string,
    description: string,
    h1: string,
    content: string,
    links: seq<Link>)

  /** The outcome of fetching and parsing every URL: absent = the fetch fails. */
  type Web = map<Url, Document>

  /** `new URL(href, base).href`; `None` when the URL constructor throws. */
  type Resolver = (string, Url) -> Option<Url>

  /** The limit `scanWebsite` uses when the caller passes none. */
  const DefaultMaxPages: int := 100

  // ---------------------------------------------------------------------
  // Link collection

  /** The link one anchor contributes: none when its `href` does not resolve
      against the base URL or when the absolute URL does not start with it. */
  function LinkOf(a: Anchor, baseUrl: Url, resolve: Resolver): seq<Link> {
    match resolve(a.href, baseUrl)
    case None => []
    case Some(abs) => if StartsWith(abs, baseUrl) then [Link(abs, Trim(a.text))] else []
  }

  /** The internal links of a document, in document order. */
  function InternalLinks(anchors: seq<Anchor>, baseUrl: Url, resolve: Resolver): (r: seq<Link>)
    ensures |r| <= |anchors|
    ensures forall i :: 0 <= i < |r| ==> StartsWith(r[i].url, baseUrl)
  {
    if anchors == [] then []
    else InternalLinks(anchors[..|anchors| - 1], baseUrl, resolve) + LinkOf(anchors[|anchors| - 1], baseUrl, resolve)
  }

  /** Links are collected anchor by anchor: the links of a document split in
      two are the links of the first part followed by those of the second, so
      an anchor that fails to resolve drops only itself and the order is the
      document order. */
  lemma {:induction false} InternalLinksAppend(a: seq<Anchor>, b: seq<Anchor>, baseUrl: Url, resolve: Resolver)
    ensures InternalLinks(a + b, baseUrl, resolve) == InternalLinks(a, baseUrl, resolve) + InternalLinks(b, baseUrl, resolve)
    decreases |b|
  {
    if b == [] {
      assert a + b == a;
    } else {
      var n := |b| - 1;
      var pre, x := b[..n], b[n];
      assert b == pre + [x];
      assert a + b == (a + pre) + [x] by {
        assert a + (pre + [x]) == (a + pre) + [x];
      }
      var la, lp, lx := InternalLinks(a, baseUrl, resolve), InternalLinks(pre, baseUrl, resolve), LinkOf(x, baseUrl, resolve);
      assert InternalLinks(a + pre, baseUrl, resolve) == la + lp by {
        InternalLinksAppend(a, pre, baseUrl, resolve);
      }
      assert InternalLinks(a + b, baseUrl, resolve) == InternalLinks(a + pre, baseUrl, resolve) + lx by {
        InternalLinksSnoc(a + pre, x, baseUrl, resolve);
      }
      assert InternalLinks(b, baseUrl, resolve) == lp + lx by {
        InternalLinksSnoc(pre, x, baseUrl, resolve);
      }
      assert (la + lp) + lx == la + (lp + lx);
    }
  }

  /** Conversely, every anchor whose absolute URL starts with the base URL
      contributes its link. */
  lemma AnchorKept(anchors: seq<Anchor>, k: nat, baseUrl: Url, resolve: Resolver)
    requires k < |anchors|
    requires resolve(anchors[k].href, baseUrl).Some?
    requires StartsWith(resolve(anchors[k].href, baseUrl).value, baseUrl)
    ensures Link(resolve(anchors[k].href, baseUrl).value, Trim(anchors[k].text)) in InternalLinks(anchors, baseUrl, resolve)
  {
    var a, pre, post := anchors[k], anchors[..k], anchors[k + 1..];
    var link := Link(resolve(a.href, baseUrl).value, Trim(a.text));
    assert anchors == (pre + [a]) + post;
    InternalLinksAppend(pre + [a], post, baseUrl, resolve);
    InternalLinksSnoc(pre, a, baseUrl, resolve);
    assert LinkOf(a, baseUrl, resolve) == [link];
    var front := InternalLinks(pre, baseUrl, resolve) + [link];
    assert front[|front| - 1] == link;
    assert InternalLinks(anchors, baseUrl, resolve) == front + InternalLinks(post, baseUrl, resolve);
  }

  lemma InternalLinksSnoc(s: seq<Anchor>, x: Anchor, baseUrl: Url, resolve: Resolver)
    ensures InternalLinks(s + [x], baseUrl, resolve) == InternalLinks(s, baseUrl, resolve) + LinkOf(x, baseUrl, resolve)
  {
    assert (s + [x])[..|s|] == s;
  }

  /** The `$('a[href]').each(...)` loop: pushes the link of each anchor in turn. */
  method CollectLinks(anchors: seq<Anchor>, baseUrl: Url, resolve: Resolver) returns (links: seq<Link>)
    ensures links == InternalLinks(anchors, baseUrl, resolve)
  {
    links := [];
    var i := 0;
    while i < |anchors|
      invariant 0 <= i <= |anchors|
      invariant links == InternalLinks(anchors[..i], baseUrl, resolve)
    {
      assert anchors[..i + 1][..i] == anchors[..i];
      var a := anchors[i];
      match resolve(a.href, baseUrl) {
        case None =>
        case Some(abs) =>
          if StartsWith(abs, baseUrl) {
            links := links + [Link(abs, Trim(a.text))];
          }
      }
      i := i + 1;
    }
    assert anchors[..i] == anchors;
  }

  /** The record built for a fetched document. */
  function PageOf(url: Url, doc: Document, baseUrl: Url, resolve: Resolver): (p: Page)
    ensures p.url == url
    ensures doc.description == None ==> p.description == ""
    ensures IsTrimmed(p.title) && IsTrimmed(p.h1) && IsTrimmed(p.content)
    ensures forall i :: 0 <= i < |p.links| ==> StartsWith(p.links[i].url, baseUrl)
  {
    Page(url, Trim(doc.title), doc.description.GetOr(""), Trim(doc.h1), Trim(doc.body),
         InternalLinks(doc.anchors, baseUrl, resolve))
  }

  // ---------------------------------------------------------------------
  // The traversal, as functions

  /** The visited URLs (in insertion order, as a JavaScript `Set` keeps them)
      and the pages pushed so far. */
  datatype Crawl = Crawl(visited: seq<Url>, pages: seq<Page>)

  /** How many more URLs may be visited. */
  function Budget(maxPages: int, visited: seq<Url>): nat {
    if |visited| < maxPages then maxPages - |visited| else 0
  }

  /** `_crawlPage(baseUrl, url, pages, maxPages)` from the state `st`. */
  function CrawlPageSpec(web: Web, resolve: Resolver, baseUrl: Url, maxPages: int, url: Url, st: Crawl): (r: Crawl)
    decreases Budget(maxPages, st.visited), 0
    ensures st.visited <= r.visited && st.pages <= r.pages
    ensures |st.visited| >= maxPages || url in st.visited || url !in web ==> r == st
    ensures url in r.visited <==> url in st.visited || (|st.visited| < maxPages && url in web)
  {
    if |st.visited| >= maxPages || url in st.visited then st
    else if url !in web then st
    else
      var page := PageOf(url, web[url], baseUrl, resolve);
      var r := CrawlLinksSpec(web, resolve, baseUrl, maxPages, page.links, 0, Crawl(st.visited + [url], st.pages + [page]));
      assert r.visited[|st.visited|] == url;
      r
  }

  /** The `for (const link of pageData.links)` loop, from link `i` on. */
  function CrawlLinksSpec(web: Web, resolve: Resolver, baseUrl: Url, maxPages: int,
                          links: seq<Link>, i: nat, st: Crawl): (r: Crawl)
    requires i <= |links|
    decreases Budget(maxPages, st.visited), 1, |links| - i
    ensures st.visited <= r.visited && st.pages <= r.pages
  {
    if i == |links| then st
    else
      var next := if |st.visited| < maxPages then CrawlPageSpec(web, resolve, baseUrl, maxPages, links[i].url, st) else st;
      CrawlLinksSpec(web, resolve, baseUrl, maxPages, links, i + 1, next)
  }

  /** `scanWebsite(baseUrl, maxPages)`: a crawl from the base URL with an
      empty visited set and no pages. */
  function Scan(web: Web, resolve: Resolver, baseUrl: Url, maxPages: int): (r: Crawl)
    ensures maxPages <= 0 || baseUrl !in web ==> r == Crawl([], [])
    ensures baseUrl in r.visited <==> 0 < maxPages && baseUrl in web
  {
    CrawlPageSpec(web, resolve, baseUrl, maxPages, baseUrl, Crawl([], []))
  }

  // ---------------------------------------------------------------------
  // The state the traversal keeps

  predicate NoDuplicates(s: seq<Url>) {
    forall i, j :: 0 <= i < j < |s| ==> s[i] != s[j]
  }

  /** What holds of every state the crawl passes through: one page per
      visited URL, in the same order, built from that URL's document; no URL
      twice; every URL in scope; no more URLs than `maxPages`. */
  predicate Consistent(web: Web, resolve: Resolver, baseUrl: Url, maxPages: int, st: Crawl) {
    && |st.pages| == |st.visited|
    && NoDuplicates(st.visited)
    && (st.visited == [] || |st.visited| <= maxPages)
    && (forall i :: 0 <= i < |st.visited| ==>
          && StartsWith(st.visited[i], baseUrl)
          && st.visited[i] in web
          && st.pages[i] == PageOf(st.visited[i], web[st.visited[i]], baseUrl, resolve))
  }

  lemma {:induction false} CrawlPageConsistent(web: Web, resolve: Resolver, baseUrl: Url, maxPages: int, url: Url, st: Crawl)
    requires Consistent(web, resolve, baseUrl, maxPages, st)
    requires StartsWith(url, baseUrl)
    ensures Consistent(web, resolve, baseUrl, maxPages, CrawlPageSpec(web, resolve, baseUrl, maxPages, url, st))
    decreases Budget(maxPages, st.visited), 0
  {
    if |st.visited| >= maxPages || url in st.visited || url !in web {
    } else {
      var page := PageOf(url, web[url], baseUrl, resolve);
      var st' := Crawl(st.visited + [url], st.pages + [page]);
      assert Consistent(web, resolve, baseUrl, maxPages, st');
      CrawlLinksConsistent(web, resolve, baseUrl, maxPages, page.links, 0, st');
    }
  }

  lemma {:induction false} CrawlLinksConsistent(web: Web, resolve: Resolver, baseUrl: Url, maxPages: int,
                                                links: seq<Link>, i: nat, st: Crawl)
    requires i <= |links|
    requires Consistent(web, resolve, baseUrl, maxPages, st)
    requires forall k :: 0 <= k < |links| ==> StartsWith(links[k].url, baseUrl)
    ensures Consistent(web, resolve, baseUrl, maxPages, CrawlLinksSpec(web, resolve, baseUrl, maxPages, links, i, st))
    decreases Budget(maxPages, st.visited), 1, |links| - i
  {
    if i < |links| {
      var next := st;
      if |st.visited| < maxPages {
        next := CrawlPageSpec(web, resolve, baseUrl, maxPages, links[i].url, st);
        CrawlPageConsistent(web, resolve, baseUrl, maxPages, links[i].url, st);
      }
      CrawlLinksConsistent(web, resolve, baseUrl, maxPages, links, i + 1, next);
    }
  }

  /** What a scan returns: at most `maxPages` pages (none when `maxPages <= 0`),
      pairwise distinct URLs, every URL starting with the base URL, and every
      page the record of its URL's document. The base URL is the first page
      whenever it can be fetched and the budget allows one page. */
  lemma ScanResult(web: Web, resolve: Resolver, baseUrl: Url, maxPages: int)
    ensures var r := Scan(web, resolve, baseUrl, maxPages);
      && Consistent(web, resolve, baseUrl, maxPages, r)
      && (maxPages <= 0 ==> r.pages == [])
      && (|r.pages| <= maxPages || r.pages == [])
      && (forall i, j :: 0 <= i < j < |r.pages| ==> r.pages[i].url != r.pages[j].url)
      && (forall i :: 0 <= i < |r.pages| ==> StartsWith(r.pages[i].url, baseUrl))
      && (0 < maxPages && baseUrl in web ==> r.pages != [] && r.pages[0].url == baseUrl)
  {
    var st0 := Crawl([], []);
    var r := Scan(web, resolve, baseUrl, maxPages);
    assert Consistent(web, resolve, baseUrl, maxPages, st0);
    CrawlPageConsistent(web, resolve, baseUrl, maxPages, baseUrl, st0);
    if 0 < maxPages && baseUrl in web {
      assert baseUrl in r.visited;
      assert r.visited != [];
    }
  }

  // ---------------------------------------------------------------------
  // Every link is followed

  /** Every link of `p` that can be fetched has been visited, unless the
      visited set has reached `maxPages`. */
  predicate LinksFollowed(web: Web, maxPages: int, p: Page, visited: seq<Url>) {
    forall k :: 0 <= k < |p.links| && p.links[k].url in web ==>
      p.links[k].url in visited || |visited| >= maxPages
  }

  /** The pages from index `lo` on have had their links followed. */
  predicate PagesFollowed(web: Web, maxPages: int, pages: seq<Page>, lo: int, visited: seq<Url>) {
    forall j :: lo <= j < |pages| && 0 <= j ==> LinksFollowed(web, maxPages, pages[j], visited)
  }

  /** Growing the visited list keeps links followed. */
  lemma FollowedGrows(web: Web, maxPages: int, p: Page, v: seq<Url>, w: seq<Url>)
    requires LinksFollowed(web, maxPages, p, v) && v <= w
    ensures LinksFollowed(web, maxPages, p, w)
  {
    forall k | 0 <= k < |p.links| && p.links[k].url in web
      ensures p.links[k].url in w || |w| >= maxPages
    {
      if p.links[k].url in v {
        var j :| 0 <= j < |v| && v[j] == p.links[k].url;
        assert w[j] == v[j];
      }
    }
  }

  /** Pages whose links were followed stay so as the crawl extends the
      pages and the visited list; new pages followed by the end join them. */
  lemma PagesFollowedGrow(web: Web, maxPages: int, lo: int,
                          p1: seq<Page>, v1: seq<Url>, p2: seq<Page>, v2: seq<Url>)
    requires p1 <= p2 && v1 <= v2
    requires PagesFollowed(web, maxPages, p1, lo, v1)
    requires PagesFollowed(web, maxPages, p2, |p1|, v2)
    ensures PagesFollowed(web, maxPages, p2, lo, v2)
  {
    forall j | lo <= j < |p1| && 0 <= j
      ensures LinksFollowed(web, maxPages, p2[j], v2)
    {
      assert p2[j] == p1[j];
      FollowedGrows(web, maxPages, p1[j], v1, v2);
    }
  }

  /** A member of a list is a member of any extension of it. */
  lemma InExtension(x: Url, v: seq<Url>, w: seq<Url>)
    requires x in v && v <= w
    ensures x in w
  {
    var j :| 0 <= j < |v| && v[j] == x;
    assert w[j] == v[j];
  }

  /** The link loop follows every fetchable link from `i` on: after it, each
      such link is visited, or the budget of `maxPages` is spent. */
  lemma {:induction false} CrawlLinksFollows(web: Web, resolve: Resolver, baseUrl: Url, maxPages: int,
                                             links: seq<Link>, i: nat, st: Crawl)
    requires i <= |links|
    ensures var r := CrawlLinksSpec(web, resolve, baseUrl, maxPages, links, i, st);
      forall k :: i <= k < |links| && links[k].url in web ==>
        links[k].url in r.visited || |r.visited| >= maxPages
    decreases Budget(maxPages, st.visited), 1, |links| - i
  {
    if i < |links| {
      var next := if |st.visited| < maxPages then CrawlPageSpec(web, resolve, baseUrl, maxPages, links[i].url, st) else st;
      var r := CrawlLinksSpec(web, resolve, baseUrl, maxPages, links, i + 1, next);
      CrawlLinksFollows(web, resolve, baseUrl, maxPages, links, i + 1, next);
      if links[i].url in web && |st.visited| < maxPages {
        assert links[i].url in next.visited;
        InExtension(links[i].url, next.visited, r.visited);
      }
    }
  }

  /** Every page a crawl step adds has had its links followed by the end of
      the step. */
  lemma {:induction false} CrawlPageFollows(web: Web, resolve: Resolver, baseUrl: Url, maxPages: int, url: Url, st: Crawl)
    ensures var r := CrawlPageSpec(web, resolve, baseUrl, maxPages, url, st);
      PagesFollowed(web, maxPages, r.pages, |st.pages|, r.visited)
    decreases Budget(maxPages, st.visited), 0
  {
    if !(|st.visited| >= maxPages || url in st.visited || url !in web) {
      var page := PageOf(url, web[url], baseUrl, resolve);
      var st' := Crawl(st.visited + [url], st.pages + [page]);
      var r := CrawlLinksSpec(web, resolve, baseUrl, maxPages, page.links, 0, st');
      CrawlLinksFollows(web, resolve, baseUrl, maxPages, page.links, 0, st');
      CrawlLinksPagesFollow(web, resolve, baseUrl, maxPages, page.links, 0, st');
      assert LinksFollowed(web, maxPages, page, r.visited);
      assert r.pages[|st.pages|] == st'.pages[|st.pages|];
      assert PagesFollowed(web, maxPages, r.pages, |st.pages|, r.visited);
    }
  }

  /** Every page the link loop adds has had its links followed by the end of
      the loop. */
  lemma {:induction false} CrawlLinksPagesFollow(web: Web, resolve: Resolver, baseUrl: Url, maxPages: int,
                                                 links: seq<Link>, i: nat, st: Crawl)
    requires i <= |links|
    ensures var r := CrawlLinksSpec(web, resolve, baseUrl, maxPages, links, i, st);
      PagesFollowed(web, maxPages, r.pages, |st.pages|, r.visited)
    decreases Budget(maxPages, st.visited), 1, |links| - i, 1
  {
    if i == |links| {
      LinksLoopDone(web, resolve, baseUrl, maxPages, links, st);
    } else if |st.visited| < maxPages {
      LinksLoopCrawled(web, resolve, baseUrl, maxPages, links, i, st);
    } else {
      LinksLoopSkipped(web, resolve, baseUrl, maxPages, links, i, st);
    }
  }

  /** Base case of `CrawlLinksPagesFollow`: the loop past its last link adds
      no page. */
  lemma LinksLoopDone(web: Web, resolve: Resolver, baseUrl: Url, maxPages: int, links: seq<Link>, st: Crawl)
    ensures var r := CrawlLinksSpec(web, resolve, baseUrl, maxPages, links, |links|, st);
      PagesFollowed(web, maxPages, r.pages, |st.pages|, r.visited)
  {
  }

  /** Induction step of `CrawlLinksPagesFollow` when the budget lets the loop
      crawl `links[i]`. */
  lemma {:induction false} LinksLoopCrawled(web: Web, resolve: Resolver, baseUrl: Url, maxPages: int,
                                            links: seq<Link>, i: nat, st: Crawl)
    requires i < |links| && |st.visited| < maxPages
    ensures var r := CrawlLinksSpec(web, resolve, baseUrl, maxPages, links, i, st);
      PagesFollowed(web, maxPages, r.pages, |st.pages|, r.visited)
    decreases Budget(maxPages, st.visited), 1, |links| - i, 0
  {
    var next := CrawlPageSpec(web, resolve, baseUrl, maxPages, links[i].url, st);
    var r := CrawlLinksSpec(web, resolve, baseUrl, maxPages, links, i + 1, next);
    CrawlPageFollows(web, resolve, baseUrl, maxPages, links[i].url, st);
    CrawlLinksPagesFollow(web, resolve, baseUrl, maxPages, links, i + 1, next);
    PagesFollowedGrow(web, maxPages, |st.pages|, next.pages, next.visited, r.pages, r.visited);
  }

  /** Induction step of `CrawlLinksPagesFollow` when the budget is spent and
      the loop skips `links[i]`. */
  lemma {:induction false} LinksLoopSkipped(web: Web, resolve: Resolver, baseUrl: Url, maxPages: int,
                                            links: seq<Link>, i: nat, st: Crawl)
    requires i < |links| && |st.visited| >= maxPages
    ensures var r := CrawlLinksSpec(web, resolve, baseUrl, maxPages, links, i, st);
      PagesFollowed(web, maxPages, r.pages, |st.pages|, r.visited)
    decreases Budget(maxPages, st.visited), 1, |links| - i, 0
  {
    CrawlLinksPagesFollow(web, resolve, baseUrl, maxPages, links, i + 1, st);
  }

  /** A scan is closed under links: every link of every page it returns was
      visited too, unless its fetch fails or the scan reached `maxPages`
      pages. */
  lemma ScanFollowsLinks(web: Web, resolve: Resolver, baseUrl: Url, maxPages: int)
    ensures var r := Scan(web, resolve, baseUrl, maxPages);
      forall j, k :: 0 <= j < |r.pages| && 0 <= k < |r.pages[j].links| && r.pages[j].links[k].url in web ==>
        r.pages[j].links[k].url in r.visited || |r.visited| >= maxPages
  {
    CrawlPageFollows(web, resolve, baseUrl, maxPages, baseUrl, Crawl([], []));
  }

  /** A link whose fetch fails is passed over and the loop goes on with the
      next link from the same state. */
  lemma FailedFetchSkipped(web: Web, resolve: Resolver, baseUrl: Url, maxPages: int,
                           links: seq<Link>, i: nat, st: Crawl)
    requires i < |links|
    requires links[i].url !in web
    ensures CrawlLinksSpec(web, resolve, baseUrl, maxPages, links, i, st)
         == CrawlLinksSpec(web, resolve, baseUrl, maxPages, links, i + 1, st)
  {
  }

  // ---------------------------------------------------------------------
  // Traversal order on a small site

  function LinkUrls(links: seq<Link>): (r: seq<Url>)
    ensures |r| == |links| && forall i :: 0 <= i < |links| ==> r[i] == links[i].url
  {
    seq(|links|, i requires 0 <= i < |links| => links[i].url)
  }

  /** The links followed from the page of a fetched URL. */
  function LinksFrom(web: Web, resolve: Resolver, baseUrl: Url, url: Url): seq<Url>
    requires url in web
  {
    LinkUrls(PageOf(url, web[url], baseUrl, resolve).links)
  }

  /** A site where the base page A links to B and C, B links back to A and on
      to D, and C and D have no links. With room for three pages the crawl
      visits A, B, D (depth first, in link order, the cycle back to A cut by
      the visited set) and never reaches C. */
  lemma CrawlOrderExample(web: Web, resolve: Resolver, a: Url, b: Url, c: Url, d: Url)
    requires a != b && a != c && a != d && b != c && b != d && c != d
    requires a in web && b in web && c in web && d in web
    requires LinksFrom(web, resolve, a, a) == [b, c]
    requires LinksFrom(web, resolve, a, b) == [a, d]
    requires LinksFrom(web, resolve, a, c) == []
    requires LinksFrom(web, resolve, a, d) == []
    ensures Scan(web, resolve, a, 3).visited == [a, b, d]
  {
    var pa := PageOf(a, web[a], a, resolve);
    var s1 := Crawl([a], [pa]);
    var s3 := ExampleFromB(web, resolve, a, b, d, s1);
    assert CrawlLinksSpec(web, resolve, a, 3, pa.links, 1, s3) == s3;
    assert CrawlLinksSpec(web, resolve, a, 3, pa.links, 0, s1) == s3 by {
      assert pa.links[0].url == b;
    }
    assert Scan(web, resolve, a, 3) == s3 by {
      assert Crawl([], []).visited + [a] == s1.visited && Crawl([], []).pages + [pa] == s1.pages;
    }
  }

  /** The middle of the example: from A alone, crawling B visits B then D. */
  lemma ExampleFromB(web: Web, resolve: Resolver, a: Url, b: Url, d: Url, s1: Crawl) returns (s3: Crawl)
    requires a != b && a != d && b != d
    requires b in web && d in web
    requires s1.visited == [a] && |s1.pages| == 1
    requires LinksFrom(web, resolve, a, b) == [a, d]
    requires LinksFrom(web, resolve, a, d) == []
    ensures s3.visited == [a, b, d]
    ensures CrawlPageSpec(web, resolve, a, 3, b, s1) == s3
  {
    var pb, pd := PageOf(b, web[b], a, resolve), PageOf(d, web[d], a, resolve);
    var s2 := Crawl([a, b], s1.pages + [pb]);
    s3 := Crawl([a, b, d], s2.pages + [pd]);
    assert pd.links == [];
    assert CrawlPageSpec(web, resolve, a, 3, d, s2) == s3 by {
      assert s2.visited + [d] == s3.visited;
    }
    assert CrawlLinksSpec(web, resolve, a, 3, pb.links, 1, s2) == s3 by {
      assert pb.links[1].url == d;
    }
    assert CrawlLinksSpec(web, resolve, a, 3, pb.links, 0, s2) == s3 by {
      assert pb.links[0].url == a;
    }
    assert s1.visited + [b] == s2.visited;
  }

  // ---------------------------------------------------------------------
  // The service object

  /** `WebsiteService`: its only field is the set of visited URLs. */
  class WebsiteService {
    var visitedUrls: seq<Url>

    constructor ()
      ensures visitedUrls == []
    {
      visitedUrls := [];
    }

    /** `scanWebsite(baseUrl, maxPages = 100)`. The visited set is cleared
        first, so nothing carries over from an earlier scan. */
    method ScanWebsite(web: Web, resolve: Resolver, baseUrl: Url, maxPages: Option<int>) returns (pages: seq<Page>)
      modifies this
      ensures Crawl(visitedUrls, pages) == Scan(web, resolve, baseUrl, maxPages.GetOr(DefaultMaxPages))
    {
      var limit := maxPages.GetOr(DefaultMaxPages);
      pages := [];
      visitedUrls := [];
      pages := CrawlPage(web, resolve, baseUrl, baseUrl, pages, limit);
    }

    /** `_crawlPage(baseUrl, currentUrl, pages, maxPages)`: `pages` is the
        caller's array; the method returns it with this call's pushes added. */
    method CrawlPage(web: Web, resolve: Resolver, baseUrl: Url, currentUrl: Url, pages: seq<Page>, maxPages: int)
      returns (pages': seq<Page>)
      modifies this
      decreases Budget(maxPages, visitedUrls)
      ensures Crawl(visitedUrls, pages') == CrawlPageSpec(web, resolve, baseUrl, maxPages, currentUrl, Crawl(old(visitedUrls), pages))
    {
      pages' := pages;
      if |visitedUrls| >= maxPages || currentUrl in visitedUrls {
        return;
      }
      if currentUrl !in web {
        // the fetch failed: the error is logged and nothing is recorded
        return;
      }
      var doc := web[currentUrl];
      visitedUrls := visitedUrls + [currentUrl];
      var links := CollectLinks(doc.anchors, baseUrl, resolve);
      var page := Page(currentUrl, Trim(doc.title), doc.description.GetOr(""), Trim(doc.h1), Trim(doc.body), links);
      pages' := pages' + [page];
      ghost var goal := CrawlPageSpec(web, resolve, baseUrl, maxPages, currentUrl, Crawl(old(visitedUrls), pages));
      var i := 0;
      while i < |links|
        invariant 0 <= i <= |links|
        invariant old(visitedUrls) + [currentUrl] <= visitedUrls
        invariant CrawlLinksSpec(web, resolve, baseUrl, maxPages, links, i, Crawl(visitedUrls, pages')) == goal
      {
        if |visitedUrls| < maxPages {
          pages' := CrawlPage(web, resolve, baseUrl, links[i].url, pages', maxPages);
        }
        i := i + 1;
      }
    }
  }
}
