/** The search → crawl → aggregate → synthesize pipeline of the deep-research
    web tools: a search engine turns a query into URLs, a crawler turns each
    URL into a page dict or a failure string, the page dicts are kept in
    order, and an LLM extractor folds them into one indexed context and asks
    a chat model one question about it.

    The search APIs, the crawler's fetch and the chat-completion client are
    parameters. A `Session` records, besides the answer, which URLs were
    crawled and which completion requests were sent. */
module WebSearch {
  import opened PyStr

  /** The exceptions the pipeline lets through. */
  datatype Raised =
    | KeyError(key: string)          // a search result without the expected key
    | ServiceError(reason: string)   // raised inside a search API or the completion client
    | ValueError(message: string)    // an unsupported model provider
    | MissingApiKey                  // the OpenAI client built without any API key

  /** `num_results` when the caller gives none. */
  const DefaultNumResults: nat := 3

  /** Links containing this are dropped from Google results. */
  const HuggingFacePrefix: string := "https://huggingface.co/"

  // ---------------------------------------------------------------------------
  // Search engines

  /** One search result: a dict from field names to strings. */
  type Hit = map<string, string>

  /** The search APIs: DuckDuckGo's `DDGS().text(query, max_results=n)` and
      Google's `GoogleSearchAPIWrapper().results(query, num_results=n)`. */
  datatype SearchApis = SearchApis(
    ddgText: (string, nat) -> Result<seq<Hit>, Raised>,
    googleResults: (string, nat) -> Result<seq<Hit>, Raised>)

  /** `[result[key] for result in hits]`: one URL per result, in result order,
      or a KeyError when some result lacks the key. */
  function Urls(hits: seq<Hit>, key: string): (r: Result<seq<string>, Raised>)
    ensures r.Success? <==> forall k :: 0 <= k < |hits| ==> key in hits[k]
    ensures r.Success? ==> |r.value| == |hits|
    ensures r.Success? ==> forall k :: 0 <= k < |hits| ==> r.value[k] == hits[k][key]
    ensures r.Failure? ==> r.error == KeyError(key)
  {
    if hits == [] then Success([])
    else
      var init :- Urls(hits[..|hits| - 1], key);
      var last := hits[|hits| - 1];
      if key in last then Success(init + [last[key]]) else Failure(KeyError(key))
  }

  predicate IsHuggingFace(link: string) {
    Contains(link, HuggingFacePrefix)
  }

  /** The index `list.index(x)` finds: the first position holding `x`. */
  function IndexOf(s: seq<string>, x: string): (j: nat)
    requires x in s
    ensures j < |s| && s[j] == x && x !in s[..j]
  {
    if s[0] == x then 0
    else
      var j := 1 + IndexOf(s[1..], x);
      assert s[..j] == [s[0]] + s[1..][..j - 1];
      j
  }

  /** `list.remove(x)`: delete the first element equal to `x`. Python raises
      when `x` is absent; the filter only removes elements it just read. */
  function RemoveFirst(s: seq<string>, x: string): seq<string>
    requires x in s
  {
    var j := IndexOf(s, x);
    s[..j] + s[j + 1..]
  }

  /** The Google post-filter from cursor `i` on. A Python `for` over a list
      reads `links[i]` and advances `i`; removing an element shifts the rest
      left, so the element right after a removed one is never read. */
  function FilterFrom(links: seq<string>, i: nat): seq<string>
    decreases |links| - i
  {
    if i >= |links| then links
    else if IsHuggingFace(links[i]) then FilterFrom(RemoveFirst(links, links[i]), i + 1)
    else FilterFrom(links, i + 1)
  }

  function GoogleFilter(links: seq<string>): (r: seq<string>)
    ensures Subseq(r, links) && |r| <= |links|
  {
    FilterFromSubseq(links, 0);
    SubseqLength(FilterFrom(links, 0), links);
    FilterFrom(links, 0)
  }

  /** The post-filter loop of Google's `perform_search`, removing from the
      list it iterates over. */
  method GooglePostFilter(links: seq<string>) returns (kept: seq<string>)
    ensures kept == GoogleFilter(links)
  {
    kept := links;
    var i := 0;
    while i < |kept|
      invariant FilterFrom(kept, i) == GoogleFilter(links)
      decreases |kept| - i
    {
      var link := kept[i];
      i := i + 1;
      if IsHuggingFace(link) {
        kept := RemoveFirst(kept, link);
      }
    }
  }

  datatype Engine = Google | DuckDuckGo

  /** `perform_search(query, num_results)` of either engine. */
  function SearchResults(engine: Engine, apis: SearchApis, query: string, numResults: nat)
    : (r: Result<seq<string>, Raised>)
    ensures var api := if engine == Google then apis.googleResults(query, numResults)
                       else apis.ddgText(query, numResults);
      && (api.Failure? ==> r == Failure(api.error))
      && (api.Success? && r.Failure? ==> r.error == KeyError(if engine == Google then "link" else "href"))
      && (r.Success? && engine == DuckDuckGo ==> |r.value| == |api.value|)
      && (r.Success? && engine == Google ==> |r.value| <= |api.value|)
  {
    match engine
    case DuckDuckGo =>
      var hits :- apis.ddgText(query, numResults);
      Urls(hits, "href")
    case Google =>
      var hits :- apis.googleResults(query, numResults);
      var links :- Urls(hits, "link");
      Success(GoogleFilter(links))
  }

  method PerformSearch(engine: Engine, apis: SearchApis, query: string, numResults: nat)
    returns (r: Result<seq<string>, Raised>)
    ensures r == SearchResults(engine, apis, query, numResults)
  {
    var hits: Result<seq<Hit>, Raised>;
    if engine == DuckDuckGo {
      hits := apis.ddgText(query, numResults);
      if hits.Failure? {
        return Failure(hits.error);
      }
      r := Urls(hits.value, "href");
    } else {
      hits := apis.googleResults(query, numResults);
      if hits.Failure? {
        return Failure(hits.error);
      }
      var links := Urls(hits.value, "link");
      if links.Failure? {
        return Failure(links.error);
      }
      var kept := GooglePostFilter(links.value);
      r := Success(kept);
    }
  }

  // ---------------------------------------------------------------------------
  // Search-engine properties

  /** DuckDuckGo returns exactly the `href` of each result, in result order;
      a result without one raises KeyError, and an API error passes through. */
  lemma DuckDuckGoSearch(apis: SearchApis, query: string, n: nat)
    ensures var r := SearchResults(DuckDuckGo, apis, query, n);
      match apis.ddgText(query, n)
      case Failure(e) => r == Failure(e)
      case Success(hits) =>
        && ((forall k :: 0 <= k < |hits| ==> "href" in hits[k]) <==> r.Success?)
        && (r.Success? ==> |r.value| == |hits|
                           && forall k :: 0 <= k < |hits| ==> r.value[k] == hits[k]["href"])
        && (r.Failure? ==> r.error == KeyError("href"))
  {
  }

  /** `a` is `b` with some elements deleted, order kept. */
  predicate Subseq(a: seq<string>, b: seq<string>)
    decreases |b|
  {
    if a == [] then true
    else if b == [] then false
    else if a[0] == b[0] then Subseq(a[1..], b[1..])
    else Subseq(a, b[1..])
  }

  lemma {:induction false} SubseqLength(a: seq<string>, b: seq<string>)
    requires Subseq(a, b)
    ensures |a| <= |b|
    decreases |b|
  {
    if a != [] {
      if a[0] == b[0] {
        SubseqLength(a[1..], b[1..]);
      } else {
        SubseqLength(a, b[1..]);
      }
    }
  }

  lemma {:induction false} SubseqRefl(a: seq<string>)
    ensures Subseq(a, a)
    decreases |a|
  {
    if a != [] {
      SubseqRefl(a[1..]);
    }
  }

  lemma {:induction false} SubseqDropHead(a: seq<string>, b: seq<string>)
    requires a != [] && Subseq(a, b)
    ensures Subseq(a[1..], b)
    decreases |b|
  {
    if a[1..] != [] {
      if a[0] != b[0] {
        SubseqDropHead(a, b[1..]);
      }
      // now Subseq(a[1..], b[1..])
      if a[1] == b[0] {
        SubseqDropHead(a[1..], b[1..]);
      }
    }
  }

  lemma {:induction false} SubseqTrans(a: seq<string>, b: seq<string>, c: seq<string>)
    requires Subseq(a, b) && Subseq(b, c)
    ensures Subseq(a, c)
    decreases |c|
  {
    if a != [] {
      assert b != [] && c != [];
      if b[0] == c[0] {
        if a[0] == b[0] {
          SubseqTrans(a[1..], b[1..], c[1..]);
        } else {
          SubseqTrans(a, b[1..], c[1..]);
        }
      } else {
        SubseqTrans(a, b, c[1..]);
        if a[0] == c[0] {
          SubseqDropHead(a, c[1..]);
        }
      }
    }
  }

  /** Deleting one element gives a subsequence. */
  lemma {:induction false} SubseqDelete(s: seq<string>, j: nat)
    requires j < |s|
    ensures Subseq(s[..j] + s[j + 1..], s)
    decreases j
  {
    var t := s[..j] + s[j + 1..];
    if j == 0 {
      assert t == s[1..];
      SubseqRefl(s);
      if s[1..] != [] {
        SubseqDropHead(s, s);
      }
    } else {
      SubseqDelete(s[1..], j - 1);
      assert t[0] == s[0];
      assert t[1..] == s[1..][..j - 1] + s[1..][j..];
    }
  }

  lemma {:induction false} FilterFromSubseq(links: seq<string>, i: nat)
    ensures Subseq(FilterFrom(links, i), links)
    decreases |links| - i
  {
    if i >= |links| {
      SubseqRefl(links);
    } else if IsHuggingFace(links[i]) {
      var rest := RemoveFirst(links, links[i]);
      FilterFromSubseq(rest, i + 1);
      SubseqDelete(links, IndexOf(links, links[i]));
      SubseqTrans(FilterFrom(rest, i + 1), rest, links);
    } else {
      FilterFromSubseq(links, i + 1);
    }
  }

  /** The elements of `s` that `drop` rejects, in order. */
  function Without(drop: string -> bool, s: seq<string>): seq<string> {
    if s == [] then []
    else (if drop(s[0]) then [] else [s[0]]) + Without(drop, s[1..])
  }

  /** The links without the HuggingFace ones, in order. */
  function NonHuggingFace(links: seq<string>): seq<string> {
    Without(IsHuggingFace, links)
  }

  lemma {:induction false} WithoutAppend(drop: string -> bool, a: seq<string>, b: seq<string>)
    ensures Without(drop, a + b) == Without(drop, a) + Without(drop, b)
    decreases |a|
  {
    if a != [] {
      assert (a + b)[0] == a[0] && (a + b)[1..] == a[1..] + b;
      WithoutAppend(drop, a[1..], b);
    } else {
      assert a + b == b;
    }
  }

  /** The members kept are the members `drop` rejects. */
  lemma {:induction false} WithoutMembers(drop: string -> bool, s: seq<string>)
    ensures forall l :: l in Without(drop, s) <==> l in s && !drop(l)
    decreases |s|
  {
    if s != [] {
      WithoutMembers(drop, s[1..]);
      assert s == [s[0]] + s[1..];
    }
  }

  /** Removing a dropped element leaves the kept ones as they were. */
  lemma RemoveDropped(drop: string -> bool, s: seq<string>, x: string)
    requires x in s && drop(x)
    ensures Without(drop, RemoveFirst(s, x)) == Without(drop, s)
  {
    var j := IndexOf(s, x);
    var a, b := s[..j], s[j + 1..];
    assert s == a + ([x] + b);
    WithoutAppend(drop, a, [x] + b);
    assert Without(drop, [x] + b) == Without(drop, b) by {
      assert ([x] + b)[0] == x && ([x] + b)[1..] == b;
    }
    WithoutAppend(drop, a, b);
  }

  lemma {:induction false} FilterFromKeepsOthers(links: seq<string>, i: nat)
    ensures NonHuggingFace(FilterFrom(links, i)) == NonHuggingFace(links)
    decreases |links| - i
  {
    if i < |links| {
      if IsHuggingFace(links[i]) {
        RemoveDropped(IsHuggingFace, links, links[i]);
        FilterFromKeepsOthers(RemoveFirst(links, links[i]), i + 1);
      } else {
        FilterFromKeepsOthers(links, i + 1);
      }
    }
  }

  /** Google's post-filter output is a subsequence of the links, in their
      order, and every link not containing the HuggingFace prefix is kept:
      the non-HuggingFace links of the output are exactly those of the input. */
  lemma GoogleFilterSpec(links: seq<string>)
    ensures Subseq(GoogleFilter(links), links)
    ensures NonHuggingFace(GoogleFilter(links)) == NonHuggingFace(links)
    ensures forall l :: l in links && !IsHuggingFace(l) ==> l in GoogleFilter(links)
  {
    FilterFromSubseq(links, 0);
    FilterFromKeepsOthers(links, 0);
    WithoutMembers(IsHuggingFace, links);
    WithoutMembers(IsHuggingFace, GoogleFilter(links));
  }

  /** Without HuggingFace links the post-filter changes nothing. */
  lemma {:induction false} GoogleFilterNoHuggingFace(links: seq<string>, i: nat)
    requires forall k :: 0 <= k < |links| ==> !IsHuggingFace(links[k])
    ensures FilterFrom(links, i) == links
    decreases |links| - i
  {
    if i < |links| {
      GoogleFilterNoHuggingFace(links, i + 1);
    }
  }

  /** Once the cursor is past the head, a head occurring nowhere else is
      never removed. */
  lemma {:induction false} HeadSurvives(s: seq<string>, i: nat)
    requires |s| >= 1 && i >= 1 && s[0] !in s[1..]
    ensures |FilterFrom(s, i)| >= 1 && FilterFrom(s, i)[0] == s[0]
    decreases |s| - i
  {
    if i < |s| {
      if IsHuggingFace(s[i]) {
        assert s[i] in s[1..];
        var j := IndexOf(s, s[i]);
        var t := RemoveFirst(s, s[i]);
        assert j >= 1;
        assert t[0] == s[0];
        assert t[1..] == s[1..j] + s[j + 1..];
        assert forall y :: y in t[1..] ==> y in s[1..];
        HeadSurvives(t, i + 1);
      } else {
        HeadSurvives(s, i + 1);
      }
    }
  }

  /** Two consecutive HuggingFace links: removing the first shifts the second
      under the cursor's old position, so it is never examined and stays. */
  lemma ConsecutiveHuggingFaceSkipped(h1: string, h2: string, rest: seq<string>)
    requires IsHuggingFace(h1) && IsHuggingFace(h2) && h1 != h2 && h2 !in rest
    ensures GoogleFilter([h1, h2] + rest) == FilterFrom([h2] + rest, 1)
    ensures |GoogleFilter([h1, h2] + rest)| >= 1 && GoogleFilter([h1, h2] + rest)[0] == h2
  {
    var s := [h1, h2] + rest;
    assert IndexOf(s, h1) == 0;
    assert RemoveFirst(s, h1) == [h2] + rest;
    HeadSurvives([h2] + rest, 1);
  }

  /** Google search: API errors and missing `link` keys pass through; otherwise
      the result is the post-filtered link list. */
  lemma GoogleSearch(apis: SearchApis, query: string, n: nat)
    ensures var r := SearchResults(Google, apis, query, n);
      match apis.googleResults(query, n)
      case Failure(e) => r == Failure(e)
      case Success(hits) =>
        && ((forall k :: 0 <= k < |hits| ==> "link" in hits[k]) <==> r.Success?)
        && (r.Success? ==> r.value == GoogleFilter(Urls(hits, "link").value)
                           && Subseq(r.value, Urls(hits, "link").value))
        && (r.Failure? ==> r.error == KeyError("link"))
  {
    if apis.googleResults(query, n).Success? {
      var hits := apis.googleResults(query, n).value;
      if Urls(hits, "link").Success? {
        GoogleFilterSpec(Urls(hits, "link").value);
      }
    }
  }

  // ---------------------------------------------------------------------------
  // Crawler

  datatype BrowserConfig = BrowserConfig(verbose: bool)

  /** The crawl options the scripts set. */
  datatype RunConfig = RunConfig(
    wordCountThreshold: nat,
    excludedTags: seq<string>,
    excludeExternalLinks: bool,
    processIframes: bool,
    removeOverlayElements: bool,
    cacheEnabled: bool)

  const DefaultBrowserConfig: BrowserConfig := BrowserConfig(true)

  const DefaultRunConfig: RunConfig :=
    RunConfig(10, ["form", "header"], true, true, true, true)

  datatype WebCrawler = WebCrawler(browserConfig: BrowserConfig, runConfig: RunConfig)

  /** `WebCrawler(browser_config, run_config)`: a missing configuration is
      replaced by the default one. */
  function NewWebCrawler(browserConfig: Option<BrowserConfig>, runConfig: Option<RunConfig>)
    : (c: WebCrawler)
    ensures browserConfig.Some? ==> c.browserConfig == browserConfig.value
    ensures browserConfig.None? ==> c.browserConfig.verbose
    ensures runConfig.Some? ==> c.runConfig == runConfig.value
    ensures runConfig.None? ==> c.runConfig == DefaultRunConfig
  {
    WebCrawler(
      match browserConfig case Some(b) => b case None => DefaultBrowserConfig,
      match runConfig case Some(r) => r case None => DefaultRunConfig)
  }

  /** What `crawler.arun(url, config)` reports. */
  datatype CrawlResult = CrawlResult(success: bool, markdown: string, errorMessage: string)

  /** The crawler's fetch, seen from outside. */
  type Fetch = (BrowserConfig, RunConfig, string) -> CrawlResult

  /** What `crawl` returns: a `{"url", "content"}` dict or a failure string. */
  datatype CrawlOutput = PageDict(url: string, content: string) | FailureText(text: string)

  const CrawlFailedPrefix: string := "Web crawl failed with url: "

  /** `crawler.crawl(url)`. */
  function Crawl(crawler: WebCrawler, fetch: Fetch, url: string): (out: CrawlOutput)
    ensures out.PageDict? <==> fetch(crawler.browserConfig, crawler.runConfig, url).success
    ensures out.PageDict? ==>
      out.url == url && out.content == fetch(crawler.browserConfig, crawler.runConfig, url).markdown
    ensures out.FailureText? ==> StartsWith(out.text, CrawlFailedPrefix)
    ensures out.FailureText? ==> out.text[|CrawlFailedPrefix|..] == url
  {
    var result := fetch(crawler.browserConfig, crawler.runConfig, url);
    if result.success then PageDict(url, result.markdown) else FailureText(CrawlFailedPrefix + url)
  }

  /** Crawling every URL, in order. */
  function CrawlAll(crawler: WebCrawler, fetch: Fetch, urls: seq<string>): (outs: seq<CrawlOutput>)
    ensures |outs| == |urls|
    ensures forall k :: 0 <= k < |urls| ==> outs[k] == Crawl(crawler, fetch, urls[k])
  {
    if urls == [] then [] else CrawlAll(crawler, fetch, urls[..|urls| - 1]) + [Crawl(crawler, fetch, urls[|urls| - 1])]
  }

  /** The entries that are dicts, in order. */
  function Pages(outs: seq<CrawlOutput>): (pages: seq<CrawlOutput>)
    ensures forall k :: 0 <= k < |pages| ==> pages[k].PageDict?
    ensures |pages| <= |outs|
  {
    if outs == [] then []
    else Pages(outs[..|outs| - 1]) + (if outs[|outs| - 1].PageDict? then [outs[|outs| - 1]] else [])
  }

  /** The URLs whose crawl succeeded, in order. */
  function Succeeded(crawler: WebCrawler, fetch: Fetch, urls: seq<string>): seq<string> {
    if urls == [] then []
    else
      var last := urls[|urls| - 1];
      var kept := if fetch(crawler.browserConfig, crawler.runConfig, last).success then [last] else [];
      Succeeded(crawler, fetch, urls[..|urls| - 1]) + kept
  }

  /** The crawl-collection loop: crawl each URL in turn and keep the dicts. */
  method CollectPages(crawler: WebCrawler, fetch: Fetch, urls: seq<string>)
    returns (webpages: seq<CrawlOutput>)
    ensures webpages == Pages(CrawlAll(crawler, fetch, urls))
  {
    webpages := [];
    for i := 0 to |urls|
      invariant webpages == Pages(CrawlAll(crawler, fetch, urls[..i]))
    {
      var webDict := Crawl(crawler, fetch, urls[i]);
      if webDict.PageDict? {
        webpages := webpages + [webDict];
      }
      assert urls[..i + 1][..i] == urls[..i];
    }
    assert urls[..|urls|] == urls;
  }

  /** The collected pages are exactly the successful crawls, in search-result
      order, each carrying its URL and its markdown; failed crawls are dropped. */
  lemma {:induction false} CollectedPages(crawler: WebCrawler, fetch: Fetch, urls: seq<string>)
    ensures var pages, ok := Pages(CrawlAll(crawler, fetch, urls)), Succeeded(crawler, fetch, urls);
      && |pages| == |ok|
      && forall k :: 0 <= k < |ok| ==>
           pages[k] == PageDict(ok[k], fetch(crawler.browserConfig, crawler.runConfig, ok[k]).markdown)
    ensures Subseq(Succeeded(crawler, fetch, urls), urls)
  {
    if urls != [] {
      var init := urls[..|urls| - 1];
      CollectedPages(crawler, fetch, init);
      assert CrawlAll(crawler, fetch, urls)[..|urls| - 1] == CrawlAll(crawler, fetch, init);
      SucceededSubseq(crawler, fetch, urls);
    } else {
      SubseqRefl(urls);
    }
  }

  /** Extending the longer sequence keeps a subsequence. */
  lemma {:induction false} SubseqSnocRight(a: seq<string>, b: seq<string>, x: string)
    requires Subseq(a, b)
    ensures Subseq(a, b + [x])
    decreases |b|
  {
    if a != [] {
      assert (b + [x])[0] == b[0] && (b + [x])[1..] == b[1..] + [x];
      if a[0] == b[0] {
        SubseqSnocRight(a[1..], b[1..], x);
      } else {
        SubseqSnocRight(a, b[1..], x);
      }
    }
  }

  /** Extending both sequences by the same element keeps a subsequence. */
  lemma {:induction false} SubseqSnoc(a: seq<string>, b: seq<string>, x: string)
    requires Subseq(a, b)
    ensures Subseq(a + [x], b + [x])
    decreases |b|
  {
    if a == [] {
      if b == [] {
        assert Subseq([x][1..], [x][1..]);
      } else if b[0] != x {
        SubseqSnoc(a, b[1..], x);
        assert (b + [x])[1..] == b[1..] + [x];
        assert a + [x] == [x];
      }
    } else {
      assert (a + [x])[0] == a[0] && (a + [x])[1..] == a[1..] + [x];
      assert (b + [x])[0] == b[0] && (b + [x])[1..] == b[1..] + [x];
      if a[0] == b[0] {
        SubseqSnoc(a[1..], b[1..], x);
      } else {
        SubseqSnoc(a, b[1..], x);
      }
    }
  }

  lemma {:induction false} SucceededSubseq(crawler: WebCrawler, fetch: Fetch, urls: seq<string>)
    ensures Subseq(Succeeded(crawler, fetch, urls), urls)
    decreases |urls|
  {
    if urls == [] {
    } else {
      var init := urls[..|urls| - 1];
      var x := urls[|urls| - 1];
      SucceededSubseq(crawler, fetch, init);
      assert urls == init + [x];
      assert Succeeded(crawler, fetch, urls) == Succeeded(crawler, fetch, init)
        + (if fetch(crawler.browserConfig, crawler.runConfig, x).success then [x] else []);
      if fetch(crawler.browserConfig, crawler.runConfig, x).success {
        SubseqSnoc(Succeeded(crawler, fetch, init), init, x);
        assert Subseq(Succeeded(crawler, fetch, init) + [x], init + [x]);
        assert Succeeded(crawler, fetch, urls) == Succeeded(crawler, fetch, init) + [x];
      } else {
        SubseqSnocRight(Succeeded(crawler, fetch, init), init, x);
        assert Succeeded(crawler, fetch, urls) == Succeeded(crawler, fetch, init);
      }
    }
  }

  // ---------------------------------------------------------------------------
  // Context and synthesis

  /** `"=" * 10`. */
  const Breaker: string := "=========="

  /** What the entry at position `i` adds to the context: a dict contributes
      `[i] source: url\ncontent\n==========\n`, anything else nothing. */
  function Entry(page: CrawlOutput, i: nat): string {
    match page
    case PageDict(url, content) =>
      "[" + NatToString(i) + "] source: " + url + "\n" + content + "\n" + Breaker + "\n"
    case FailureText(_) => ""
  }

  /** The texts `entry` gives the elements of `pages`, numbered from
      `offset`, concatenated in order. */
  function Numbered(entry: (CrawlOutput, nat) -> string, pages: seq<CrawlOutput>, offset: nat): string
    decreases |pages|
  {
    if pages == [] then "" else entry(pages[0], offset) + Numbered(entry, pages[1..], offset + 1)
  }

  /** The entries of `pages`, numbered from `offset`, concatenated in order. */
  function ContextFrom(pages: seq<CrawlOutput>, offset: nat): string {
    Numbered(Entry, pages, offset)
  }

  /** The context of `LLMExtractor.run`: entries numbered by their position in
      the whole input list. */
  function Context(pages: seq<CrawlOutput>): string {
    ContextFrom(pages, 0)
  }

  lemma {:induction false} NumberedSplit(entry: (CrawlOutput, nat) -> string,
                                         xs: seq<CrawlOutput>, ys: seq<CrawlOutput>, offset: nat)
    ensures Numbered(entry, xs + ys, offset)
      == Numbered(entry, xs, offset) + Numbered(entry, ys, offset + |xs|)
    decreases |xs|
  {
    if xs == [] {
      assert xs + ys == ys;
    } else {
      var zs := xs + ys;
      assert zs[0] == xs[0] && zs[1..] == xs[1..] + ys;
      NumberedSplit(entry, xs[1..], ys, offset + 1);
    }
  }

  lemma NumberedSingle(entry: (CrawlOutput, nat) -> string, page: CrawlOutput, offset: nat)
    ensures Numbered(entry, [page], offset) == entry(page, offset)
  {
    assert [page][1..] == [];
    assert entry(page, offset) + "" == entry(page, offset);
  }

  /** Splitting the input splits the context; the second part keeps counting
      from the length of the first. */
  lemma ContextSplit(xs: seq<CrawlOutput>, ys: seq<CrawlOutput>, offset: nat)
    ensures ContextFrom(xs + ys, offset) == ContextFrom(xs, offset) + ContextFrom(ys, offset + |xs|)
  {
    NumberedSplit(Entry, xs, ys, offset);
  }

  /** Appending one entry appends its text, numbered by its position. */
  lemma ContextAppend(pages: seq<CrawlOutput>, page: CrawlOutput)
    ensures Context(pages + [page]) == Context(pages) + Entry(page, |pages|)
  {
    ContextSplit(pages, [page], 0);
    ContextSingle(page, |pages|);
  }

  /** The context is empty exactly when no entry is a dict. */
  lemma {:induction false} ContextEmptyIff(pages: seq<CrawlOutput>, offset: nat)
    ensures ContextFrom(pages, offset) == "" <==> forall k :: 0 <= k < |pages| ==> pages[k].FailureText?
    decreases |pages|
  {
    if pages != [] {
      ContextEmptyIff(pages[1..], offset + 1);
      if pages[0].PageDict? {
        assert Entry(pages[0], offset)[0] == '[';
      }
      assert forall k :: 1 <= k < |pages| ==> pages[k] == pages[1..][k - 1];
    }
  }

  lemma ContextSingle(page: CrawlOutput, offset: nat)
    ensures ContextFrom([page], offset) == Entry(page, offset)
  {
    NumberedSingle(Entry, page, offset);
  }

  /** The text of a dict at index 0. */
  lemma EntryZero(url: string, content: string)
    ensures Entry(PageDict(url, content), 0) == "[0] source: " + url + "\n" + content + "\n" + Breaker + "\n"
  {
    assert NatToString(0) == "0";
  }

  /** A skipped non-dict entry still uses up an index. */
  lemma SkippedEntryUsesIndex(t: string, url: string, content: string)
    ensures Context([FailureText(t), PageDict(url, content)])
      == "[1] source: " + url + "\n" + content + "\n" + Breaker + "\n"
  {
    var f, p := FailureText(t), PageDict(url, content);
    assert [f, p][0] == f && [f, p][1..] == [p];
    ContextSingle(p, 1);
    assert NatToString(1) == "1";
  }

  /** The client's settings; `apiKey` is the key it resolved. */
  datatype ClientConfig = ClientConfig(timeout: nat, maxRetries: nat, apiKey: string, baseUrl: string)

  datatype LLMExtractor = LLMExtractor(client: ClientConfig, modelName: string)

  /** The environment variables the extractor reads: `TOGETHER_API_KEY`, and
      `OPENAI_API_KEY`, where the OpenAI client looks when it is given none. */
  datatype ApiKeys = ApiKeys(together: Option<string>, openAi: Option<string>)

  const TogetherUrl: string := "https://api.together.xyz/v1"
  const DefaultModel: string := "meta-llama/Llama-3.3-70B-Instruct-Turbo"
  const ToolModel: string := "meta-llama/Meta-Llama-3.1-8B-Instruct-Turbo"

  /** `OpenAI(timeout=180, max_retries=3, api_key=key, base_url=url)`: a key
      of None falls back to `OPENAI_API_KEY`, and the constructor raises when
      that is missing too. */
  function NewClient(key: Option<string>, openAiKey: Option<string>, url: string): (r: Result<ClientConfig, Raised>)
    ensures r.Success? <==> key.Some? || openAiKey.Some?
    ensures r.Success? ==> r.value.timeout == 180 && r.value.maxRetries == 3 && r.value.baseUrl == url
    ensures key.Some? ==> r.Success? && r.value.apiKey == key.value
    ensures key.None? && openAiKey.Some? ==> r.Success? && r.value.apiKey == openAiKey.value
    ensures r.Failure? ==> r.error == MissingApiKey
  {
    match key
    case Some(k) => Success(ClientConfig(180, 3, k, url))
    case None =>
      match openAiKey
      case Some(k) => Success(ClientConfig(180, 3, k, url))
      case None => Failure(MissingApiKey)
  }

  /** `LLMExtractor(provider, model_name)`. Only "together" is supported, and
      its client takes `TOGETHER_API_KEY`. */
  function NewLLMExtractor(provider: string, modelName: string, keys: ApiKeys)
    : (r: Result<LLMExtractor, Raised>)
    ensures r.Success? <==> provider == "together" && (keys.together.Some? || keys.openAi.Some?)
    ensures r.Success? ==> r.value.modelName == modelName && r.value.client.baseUrl == TogetherUrl
    ensures r.Success? ==> r.value.client.timeout == 180 && r.value.client.maxRetries == 3
    ensures r.Success? && keys.together.Some? ==> r.value.client.apiKey == keys.together.value
    ensures provider != "together" ==> r == Failure(ValueError("Model provider " + provider + " is not supported."))
    ensures provider == "together" && r.Failure? ==> r.error == MissingApiKey
  {
    if provider == "together" then
      var client :- NewClient(keys.together, keys.openAi, TogetherUrl);
      Success(LLMExtractor(client, modelName))
    else
      Failure(ValueError("Model provider " + provider + " is not supported."))
  }

  /** `LLMExtractor()` with both defaults: provider "together" and the large
      Llama 3.3 model. */
  function DefaultExtractor(keys: ApiKeys): (r: Result<LLMExtractor, Raised>)
    ensures r.Success? <==> keys.together.Some? || keys.openAi.Some?
    ensures r.Success? ==> r.value.modelName == DefaultModel && r.value.client.baseUrl == TogetherUrl
  {
    NewLLMExtractor("together", DefaultModel, keys)
  }

  /** The extractor every tool builds: `LLMExtractor(model_name=...)` with
      the small model. */
  function ToolExtractor(keys: ApiKeys): Result<LLMExtractor, Raised> {
    NewLLMExtractor("together", ToolModel, keys)
  }

  /** The tools' extractor exists iff some API key is set; it then talks to
      Together with the small model, and otherwise its construction raises. */
  lemma ToolExtractorIsTogether(keys: ApiKeys)
    ensures ToolExtractor(keys).Success? <==> keys.together.Some? || keys.openAi.Some?
    ensures ToolExtractor(keys).Success? ==>
      ToolExtractor(keys).value.modelName == ToolModel && ToolExtractor(keys).value.client.baseUrl == TogetherUrl
    ensures ToolExtractor(keys).Failure? ==> ToolExtractor(keys).error == MissingApiKey
  {
  }

  datatype Message = Message(role: string, content: string)

  datatype ChatRequest = ChatRequest(model: string, messages: seq<Message>, maxTokens: nat, temperature: real)

  /** What the chat model answers, with the usage report. */
  datatype Completion = Completion(content: string, promptTokens: nat, completionTokens: nat)

  /** `client.chat.completions.create(...)`, seen from outside. */
  type Complete = (ClientConfig, ChatRequest) -> Result<Completion, Raised>

  const PromptHead: string :=
    "Below are some pages crawled from the web. Please read through them carefully and answer the question.\n"
    + "Web content:\n"

  const PromptMiddle: string := "\n===== End of web content =====\n" + "Question: "

  /** The user message: the context and the question in a fixed template. */
  function UserMessage(context: string, question: string): (m: string)
    ensures Contains(m, context) && EndsWith(m, question + "\n")
  {
    Framed(PromptHead, context, PromptMiddle, question + "\n");
    PromptHead + context + PromptMiddle + (question + "\n")
  }

  /** The one request `run` sends. */
  function Request(llm: LLMExtractor, context: string, question: string): ChatRequest {
    ChatRequest(llm.modelName, [Message("user", UserMessage(context, question))], 2048, 0.2)
  }

  const NoContentAnswer: string := "No web content found."

  /** `(resp_msg, prompt_tokens, completion_tokens)`. */
  datatype Answer = Answer(text: string, promptTokens: nat, completionTokens: nat)

  /** What `run` returns, or raises, and the requests it sent. */
  datatype Synthesis = Synthesis(reply: Result<Answer, Raised>, requests: seq<ChatRequest>)

  /** `LLMExtractor.run(webpages, query)`. */
  function Synthesize(llm: LLMExtractor, complete: Complete, webpages: seq<CrawlOutput>, query: string)
    : (s: Synthesis)
    ensures |s.requests| <= 1
    ensures s.requests == [] ==> s.reply == Success(Answer(NoContentAnswer, 0, 0))
    ensures s.requests != [] ==>
      s.requests[0].model == llm.modelName && s.requests[0].maxTokens == 2048
      && s.requests[0].temperature == 0.2
  {
    var context := Context(webpages);
    if context == "" then Synthesis(Success(Answer(NoContentAnswer, 0, 0)), [])
    else
      var request := Request(llm, context, query);
      match complete(llm.client, request)
      case Success(c) => Synthesis(Success(Answer(c.content, c.promptTokens, c.completionTokens)), [request])
      case Failure(e) => Synthesis(Failure(e), [request])
  }

  method Run(llm: LLMExtractor, complete: Complete, webpages: seq<CrawlOutput>, query: string)
    returns (s: Synthesis)
    ensures s == Synthesize(llm, complete, webpages, query)
  {
    var context := "";
    for i := 0 to |webpages|
      invariant context == Context(webpages[..i])
    {
      var webpage := webpages[i];
      if webpage.PageDict? {
        context := context + Entry(webpage, i);
      }
      assert webpages[..i + 1] == webpages[..i] + [webpage];
      ContextAppend(webpages[..i], webpage);
    }
    assert webpages[..|webpages|] == webpages;
    if context != "" {
      var request := Request(llm, context, query);
      var resp := complete(llm.client, request);
      if resp.Success? {
        s := Synthesis(Success(Answer(resp.value.content, resp.value.promptTokens, resp.value.completionTokens)), [request]);
      } else {
        s := Synthesis(Failure(resp.error), [request]);
      }
    } else {
      s := Synthesis(Success(Answer(NoContentAnswer, 0, 0)), []);
    }
  }

  /** The two ways `run` goes: an empty context answers with the sentinel
      and sends nothing, any other context sends exactly its request. */
  lemma SynthesizeCases(llm: LLMExtractor, complete: Complete, webpages: seq<CrawlOutput>, query: string)
    ensures var s := Synthesize(llm, complete, webpages, query);
      && (Context(webpages) == "" ==> s == Synthesis(Success(Answer(NoContentAnswer, 0, 0)), []))
      && (Context(webpages) != "" ==> s.requests == [Request(llm, Context(webpages), query)])
  {
  }

  /** No dict among the pages: the fixed sentinel with zero token counts, and
      no completion call. Some dict: exactly one call, with the extractor's
      model, the context in the user message, 2048 max tokens and temperature
      0.2, and the answer and token counts taken from its reply. */
  lemma SynthesizeSpec(llm: LLMExtractor, complete: Complete, webpages: seq<CrawlOutput>, query: string)
    ensures var s := Synthesize(llm, complete, webpages, query);
      && ((forall k :: 0 <= k < |webpages| ==> webpages[k].FailureText?) <==> s.requests == [])
      && (s.requests == [] ==> s.reply == Success(Answer(NoContentAnswer, 0, 0)))
      && (s.requests != [] ==>
            && |s.requests| == 1
            && s.requests[0].model == llm.modelName
            && s.requests[0].maxTokens == 2048 && s.requests[0].temperature == 0.2
            && s.requests[0].messages == [Message("user", UserMessage(Context(webpages), query))]
            && Contains(s.requests[0].messages[0].content, Context(webpages))
            && (match complete(llm.client, s.requests[0])
                case Success(c) => s.reply == Success(Answer(c.content, c.promptTokens, c.completionTokens))
                case Failure(e) => s.reply == Failure(e)))
  {
    ContextEmptyIff(webpages, 0);
    SynthesizeCases(llm, complete, webpages, query);
  }

  // ---------------------------------------------------------------------------
  // Tools and the pipeline

  /** The search-engine argument: "google" selects Google, anything else
      DuckDuckGo. */
  function SelectEngine(name: string): (e: Engine)
    ensures e == Google <==> name == "google"
  {
    if name == "google" then Google else DuckDuckGo
  }

  datatype SearchWebTool = SearchWebTool(engine: Engine, crawler: WebCrawler, llm: LLMExtractor)

  /** `SearchWebTool(search_engine)`: the chosen engine, a default crawler and
      the small-model extractor, whose construction may raise. */
  function NewSearchWebTool(searchEngine: string, keys: ApiKeys): (r: Result<SearchWebTool, Raised>)
    ensures r.Success? <==> ToolExtractor(keys).Success?
    ensures r.Success? ==> (r.value.engine == Google <==> searchEngine == "google")
    ensures r.Success? ==> r.value.crawler == NewWebCrawler(None, None) && r.value.llm == ToolExtractor(keys).value
    ensures r.Failure? ==> r.error == MissingApiKey
  {
    var llm :- ToolExtractor(keys);
    Success(SearchWebTool(SelectEngine(searchEngine), NewWebCrawler(None, None), llm))
  }

  /** `SearchWebTool()`: the engine argument defaults to "google". */
  function DefaultSearchWebTool(keys: ApiKeys): (r: Result<SearchWebTool, Raised>)
    ensures r.Success? <==> ToolExtractor(keys).Success?
    ensures r.Success? ==> r.value.engine == Google && r.value.llm.modelName == ToolModel
  {
    NewSearchWebTool("google", keys)
  }

  datatype GetContentTool = GetContentTool(crawler: WebCrawler, llm: LLMExtractor)

  function NewGetContentTool(keys: ApiKeys): (r: Result<GetContentTool, Raised>)
    ensures r.Success? <==> ToolExtractor(keys).Success?
    ensures r.Success? ==> r.value.crawler == NewWebCrawler(None, None) && r.value.llm == ToolExtractor(keys).value
    ensures r.Failure? ==> r.error == MissingApiKey
  {
    var llm :- ToolExtractor(keys);
    Success(GetContentTool(NewWebCrawler(None, None), llm))
  }

  /** One run of a tool: the answer or the exception, the URLs crawled and
      the completion requests sent, in order. */
  datatype Session = Session(answer: Result<string, Raised>, crawled: seq<string>, requests: seq<ChatRequest>)

  function AnswerText(s: Synthesis): Result<string, Raised> {
    match s.reply
    case Success(a) => Success(a.text)
    case Failure(e) => Failure(e)
  }

  /** crawl → collect → synthesize, once the search has given `urls`. */
  function Answered(crawler: WebCrawler, llm: LLMExtractor, fetch: Fetch, complete: Complete,
                    urls: seq<string>, query: string): Session
  {
    var s := Synthesize(llm, complete, Pages(CrawlAll(crawler, fetch, urls)), query);
    Session(AnswerText(s), urls, s.requests)
  }

  /** search → crawl → collect → synthesize. */
  function SearchSession(engine: Engine, crawler: WebCrawler, llm: LLMExtractor, apis: SearchApis,
                         fetch: Fetch, complete: Complete, query: string): Session
  {
    match SearchResults(engine, apis, query, DefaultNumResults)
    case Failure(e) => Session(Failure(e), [], [])
    case Success(urls) => Answered(crawler, llm, fetch, complete, urls, query)
  }

  method SearchPipeline(engine: Engine, crawler: WebCrawler, llm: LLMExtractor, apis: SearchApis,
                        fetch: Fetch, complete: Complete, query: string)
    returns (session: Session)
    ensures session == SearchSession(engine, crawler, llm, apis, fetch, complete, query)
  {
    var results := PerformSearch(engine, apis, query, DefaultNumResults);
    if results.Failure? {
      return Session(Failure(results.error), [], []);
    }
    var webpages := CollectPages(crawler, fetch, results.value);
    var s := Run(llm, complete, webpages, query);
    session := Session(AnswerText(s), results.value, s.requests);
  }

  /** `SearchWebTool.forward(query)`. */
  method SearchWebForward(tool: SearchWebTool, apis: SearchApis, fetch: Fetch, complete: Complete, query: string)
    returns (session: Session)
    ensures session == SearchSession(tool.engine, tool.crawler, tool.llm, apis, fetch, complete, query)
  {
    session := SearchPipeline(tool.engine, tool.crawler, tool.llm, apis, fetch, complete, query);
  }

  /** The module-level `search_web(query)`: DuckDuckGo and a default
      crawler; the small-model extractor is built only after the crawls. */
  function SearchWebSession(apis: SearchApis, fetch: Fetch, complete: Complete, keys: ApiKeys, query: string)
    : Session
  {
    match SearchResults(DuckDuckGo, apis, query, DefaultNumResults)
    case Failure(e) => Session(Failure(e), [], [])
    case Success(urls) =>
      match ToolExtractor(keys)
      case Failure(e) => Session(Failure(e), urls, [])
      case Success(llm) => Answered(NewWebCrawler(None, None), llm, fetch, complete, urls, query)
  }

  method SearchWeb(apis: SearchApis, fetch: Fetch, complete: Complete, keys: ApiKeys, query: string)
    returns (session: Session)
    ensures session == SearchWebSession(apis, fetch, complete, keys, query)
  {
    var results := PerformSearch(DuckDuckGo, apis, query, DefaultNumResults);
    if results.Failure? {
      return Session(Failure(results.error), [], []);
    }
    var webpages := CollectPages(NewWebCrawler(None, None), fetch, results.value);
    var llm := ToolExtractor(keys);
    if llm.Failure? {
      return Session(Failure(llm.error), results.value, []);
    }
    var s := Run(llm.value, complete, webpages, query);
    session := Session(AnswerText(s), results.value, s.requests);
  }

  /** When its extractor can be built, `search_web` behaves as the search
      tool built with any engine name other than "google". */
  lemma SearchWebIsDuckDuckGoTool(engineName: string, keys: ApiKeys, apis: SearchApis,
                                  fetch: Fetch, complete: Complete, query: string)
    requires engineName != "google"
    ensures var t := NewSearchWebTool(engineName, keys);
      t.Success? ==>
        SearchSession(t.value.engine, t.value.crawler, t.value.llm, apis, fetch, complete, query)
          == SearchWebSession(apis, fetch, complete, keys, query)
  {
  }

  /** Without any API key, `search_web` still searches and crawls every
      result, then raises while building its extractor and sends no request. */
  lemma SearchWebWithoutKey(apis: SearchApis, fetch: Fetch, complete: Complete, keys: ApiKeys, query: string)
    requires keys.together.None? && keys.openAi.None?
    ensures var r := SearchResults(DuckDuckGo, apis, query, DefaultNumResults);
      var s := SearchWebSession(apis, fetch, complete, keys, query);
      && (r.Failure? ==> s == Session(Failure(r.error), [], []))
      && (r.Success? ==> s == Session(Failure(MissingApiKey), r.value, []))
  {
  }

  /** A failed search stops the pipeline: nothing is crawled, no completion
      is requested, and the exception passes through. A successful one crawls
      every result in order, and with no successful crawl answers with the
      sentinel and requests nothing. */
  lemma SearchSessionSpec(engine: Engine, crawler: WebCrawler, llm: LLMExtractor, apis: SearchApis,
                          fetch: Fetch, complete: Complete, query: string)
    ensures var r := SearchResults(engine, apis, query, DefaultNumResults);
      var s := SearchSession(engine, crawler, llm, apis, fetch, complete, query);
      && (r.Failure? ==> s == Session(Failure(r.error), [], []))
      && (r.Success? ==> s.crawled == r.value && |s.requests| <= 1)
      && (r.Success? && Succeeded(crawler, fetch, r.value) == [] ==>
            s.answer == Success(NoContentAnswer) && s.requests == [])
  {
    var r := SearchResults(engine, apis, query, DefaultNumResults);
    if r.Success? {
      var pages := Pages(CrawlAll(crawler, fetch, r.value));
      CollectedPages(crawler, fetch, r.value);
      ContextEmptyIff(pages, 0);
      SynthesizeCases(llm, complete, pages, query);
    }
  }

  /** `GetContentTool.forward(url, question)`: crawl one URL and run the
      extractor on the one-element list holding what the crawl returned. */
  function ContentSession(tool: GetContentTool, fetch: Fetch, complete: Complete, url: string, question: string)
    : Session
  {
    var s := Synthesize(tool.llm, complete, [Crawl(tool.crawler, fetch, url)], question);
    Session(AnswerText(s), [url], s.requests)
  }

  method GetContentForward(tool: GetContentTool, fetch: Fetch, complete: Complete, url: string, question: string)
    returns (session: Session)
    ensures session == ContentSession(tool, fetch, complete, url, question)
  {
    var result := Crawl(tool.crawler, fetch, url);
    var s := Run(tool.llm, complete, [result], question);
    session := Session(AnswerText(s), [url], s.requests);
  }

  /** A failed crawl reaches the extractor as a string, which it skips: the
      answer is the sentinel and nothing is requested. */
  lemma ContentCrawlFailed(tool: GetContentTool, fetch: Fetch, complete: Complete, url: string, question: string)
    requires !fetch(tool.crawler.browserConfig, tool.crawler.runConfig, url).success
    ensures ContentSession(tool, fetch, complete, url, question)
      == Session(Success(NoContentAnswer), [url], [])
  {
    ContextSingle(Crawl(tool.crawler, fetch, url), 0);
  }

  /** A successful crawl is entry 0 of the context of exactly one request. */
  lemma ContentCrawlSucceeded(tool: GetContentTool, fetch: Fetch, complete: Complete, url: string, question: string)
    requires fetch(tool.crawler.browserConfig, tool.crawler.runConfig, url).success
    ensures var markdown := fetch(tool.crawler.browserConfig, tool.crawler.runConfig, url).markdown;
      var s := ContentSession(tool, fetch, complete, url, question);
      s.requests == [Request(tool.llm, "[0] source: " + url + "\n" + markdown + "\n" + Breaker + "\n", question)]
  {
    var page := Crawl(tool.crawler, fetch, url);
    EntryZero(page.url, page.content);
    ContextSingle(page, 0);
    SynthesizeCases(tool.llm, complete, [page], question);
  }

  /** Three search results whose second crawl fails: the two pages kept are
      numbered 0 and 1, because the list handed to the extractor holds only
      dicts. */
  lemma SecondCrawlFails(crawler: WebCrawler, fetch: Fetch, u1: string, u2: string, u3: string)
    requires fetch(crawler.browserConfig, crawler.runConfig, u1).success
    requires !fetch(crawler.browserConfig, crawler.runConfig, u2).success
    requires fetch(crawler.browserConfig, crawler.runConfig, u3).success
    ensures var m1 := fetch(crawler.browserConfig, crawler.runConfig, u1).markdown;
      var m3 := fetch(crawler.browserConfig, crawler.runConfig, u3).markdown;
      var pages := Pages(CrawlAll(crawler, fetch, [u1, u2, u3]));
      && pages == [PageDict(u1, m1), PageDict(u3, m3)]
      && Context(pages) == Entry(PageDict(u1, m1), 0) + Entry(PageDict(u3, m3), 1)
  {
    var p1, p3 := Crawl(crawler, fetch, u1), Crawl(crawler, fetch, u3);
    var all := CrawlAll(crawler, fetch, [u1, u2, u3]);
    assert all == [p1, Crawl(crawler, fetch, u2), p3];
    assert all[..2][..1] == all[..1] == [p1];
    assert Pages(all[..1]) == [p1] by {
      assert all[..1][..0] == [];
    }
    assert Pages(all[..2]) == [p1];
    assert Pages(all) == [p1, p3];
    ContextSplit([p1], [p3], 0);
    ContextSingle(p1, 0);
    ContextSingle(p3, 1);
  }
}
