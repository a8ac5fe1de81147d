/**
 * The scraper (linkedAI/scraper/scrape.py): the search URL, the job links read
 * off a results page, the fields read off one posting, and the bounded loop
 * that scrapes the postings and skips the ones that fail. Browsing and HTML
 * parsing are inputs: a results page is the list of `href` attributes of its
 * job-card anchors, and a posting page is the outcome of each text lookup.
 */
module Scrape {
  import opened Wrappers
  import opened Strings
  import opened UrlCodec
  import opened SearchConfig

  const BaseUrl := "https://www.linkedin.com/jobs/search"

  /** Python truthiness of an optional string. */
  predicate Truthy(v: Option<string>) {
    v.Some? && v.value != ""
  }

  /** The entries `build_search_url` always writes. */
  function BaseQuery(keywords: string, location: string, start: int, fWT: QueryValue): Query {
    [("keywords", Str(keywords)), ("location", Str(location)), ("start", Int(start)), ("f_WT", fWT)]
  }

  /** The entry of an optional code, written only when it is truthy. */
  function OptionalEntry(key: string, v: Option<string>): Query {
    if Truthy(v) then [(key, Str(v.value))] else []
  }

  /** The query dictionary of `build_search_url`, in insertion order. */
  function SearchQuery(c: Config, start: int): Query
    reads c
  {
    BaseQuery(c.keywords, c.location, start, c.fWT)
    + OptionalEntry("f_E", c.fE) + OptionalEntry("f_TPR", c.fTPR) + OptionalEntry("f_SB2", c.fSB2)
  }

  /** The search URL: the base, `?`, then the encoded query. */
  function SearchUrl(c: Config, start: int): string
    reads c
  {
    BaseUrl + "?" + UrlEncode(SearchQuery(c, start))
  }

  /** `build_search_url(config, start)`, reading an unassigned `_f_SB2` as absent. */
  method BuildSearchUrl(c: Config, start: int := 0) returns (url: string)
    ensures url == SearchUrl(c, start)
  {
    var query: Query := [("keywords", Str(c.keywords)), ("location", Str(c.location)),
                         ("start", Int(start)), ("f_WT", c.fWT)];
    ghost var base := query;
    if Truthy(c.fE) {
      query := query + [("f_E", Str(c.fE.value))];
    }
    ghost var withE := query;
    if Truthy(c.fTPR) {
      query := query + [("f_TPR", Str(c.fTPR.value))];
    }
    ghost var withT := query;
    if Truthy(c.fSB2) {
      query := query + [("f_SB2", Str(c.fSB2.value))];
    }
    assert withE == base + OptionalEntry("f_E", c.fE);
    assert withT == withE + OptionalEntry("f_TPR", c.fTPR);
    assert query == withT + OptionalEntry("f_SB2", c.fSB2);
    url := BaseUrl + "?" + UrlEncode(query);
  }

  function Keys(q: Query): (ks: seq<string>)
    ensures |ks| == |q| && forall k :: 0 <= k < |q| ==> ks[k] == q[k].0
  {
    seq(|q|, k requires 0 <= k < |q| => q[k].0)
  }

  /** The value of the first entry with this key. */
  function Lookup(q: Query, key: string): Option<QueryValue> {
    if |q| == 0 then None else if q[0].0 == key then Some(q[0].1) else Lookup(q[1..], key)
  }

  /** The keys of two queries put together are the keys of the first, then those of the second. */
  lemma KeysAppend(a: Query, b: Query)
    ensures Keys(a + b) == Keys(a) + Keys(b)
  {
    assert |Keys(a + b)| == |Keys(a) + Keys(b)|;
    forall k | 0 <= k < |a + b| ensures Keys(a + b)[k] == (Keys(a) + Keys(b))[k] {
      if k >= |a| {
        assert (a + b)[k] == b[k - |a|];
      }
    }
  }

  /**
   * The query of a validated configuration: `keywords`, `location`, `start` and
   * `f_WT` always, in that order, then `f_E`, `f_TPR` and `f_SB2` each exactly
   * when its filter is set; `f_WT` is 2 for remote work and 1 otherwise.
   */
  lemma SearchQueryKeys(c: Config, start: int)
    requires c.Valid()
    ensures Keys(SearchQuery(c, start)) ==
      ["keywords", "location", "start", "f_WT"]
      + (if c.experienceLevels.Some? && |c.experienceLevels.value| > 0 then ["f_E"] else [])
      + (if c.timeSincePost.Some? then ["f_TPR"] else [])
      + (if c.salary.Some? then ["f_SB2"] else [])
    ensures SearchQuery(c, start)[..3] == [("keywords", Str(c.keywords)), ("location", Str(c.location)), ("start", Int(start))]
    ensures Render(SearchQuery(c, start)[3].1) == if c.remote then "2" else "1"
  {
    if c.experienceLevels.Some? && |c.experienceLevels.value| > 0 {
      LevelCodesNonEmpty(c.experienceLevels.value);
    }
    QueryKeys(c.keywords, c.location, start, c.fWT, c.fE, c.fTPR, c.fSB2);
  }

  function KeyIf(key: string, v: Option<string>): seq<string> {
    if Truthy(v) then [key] else []
  }

  /** The keys of the query built from given codes: the four fixed ones, then each truthy optional one. */
  lemma QueryKeys(keywords: string, location: string, start: int, fWT: QueryValue, fE: Option<string>, fTPR: Option<string>, fSB2: Option<string>)
    ensures var q := BaseQuery(keywords, location, start, fWT) + OptionalEntry("f_E", fE) + OptionalEntry("f_TPR", fTPR) + OptionalEntry("f_SB2", fSB2);
      && Keys(q) == ["keywords", "location", "start", "f_WT"] + KeyIf("f_E", fE) + KeyIf("f_TPR", fTPR) + KeyIf("f_SB2", fSB2)
      && q[..4] == BaseQuery(keywords, location, start, fWT)
  {
    var base := BaseQuery(keywords, location, start, fWT);
    var e, t, b := OptionalEntry("f_E", fE), OptionalEntry("f_TPR", fTPR), OptionalEntry("f_SB2", fSB2);
    assert Keys(base) == ["keywords", "location", "start", "f_WT"];
    assert Keys(e) == KeyIf("f_E", fE);
    assert Keys(t) == KeyIf("f_TPR", fTPR);
    assert Keys(b) == KeyIf("f_SB2", fSB2);
    KeysAppend(base, e);
    KeysAppend(base + e, t);
    KeysAppend(base + e + t, b);
    assert (base + e + t + b)[..4] == base;
  }

  lemma {:induction false} LookupSkip(q: Query, r: Query, key: string)
    requires forall k :: 0 <= k < |q| ==> q[k].0 != key
    ensures Lookup(q + r, key) == Lookup(r, key)
  {
    if |q| > 0 {
      assert (q + r)[1..] == q[1..] + r;
      LookupSkip(q[1..], r, key);
    } else {
      assert q + r == r;
    }
  }

  function OptionalValue(v: Option<string>): Option<QueryValue> {
    if Truthy(v) then Some(Str(v.value)) else None
  }

  lemma LookupEntry(key: string, v: Option<string>, r: Query)
    requires forall k :: 0 <= k < |r| ==> r[k].0 != key
    ensures Lookup(OptionalEntry(key, v) + r, key) == OptionalValue(v)
  {
    if Truthy(v) {
      assert (OptionalEntry(key, v) + r)[0] == (key, Str(v.value));
    } else {
      LookupSkip(r, [], key);
      assert OptionalEntry(key, v) + r == r + [];
    }
  }

  /** Each optional code is found in the query under its own key, when and as it was set. */
  lemma SearchQueryLookups(c: Config, start: int)
    ensures Lookup(SearchQuery(c, start), "f_E") == OptionalValue(c.fE)
    ensures Lookup(SearchQuery(c, start), "f_TPR") == OptionalValue(c.fTPR)
    ensures Lookup(SearchQuery(c, start), "f_SB2") == OptionalValue(c.fSB2)
  {
    var base := BaseQuery(c.keywords, c.location, start, c.fWT);
    var e, t, s := OptionalEntry("f_E", c.fE), OptionalEntry("f_TPR", c.fTPR), OptionalEntry("f_SB2", c.fSB2);
    assert SearchQuery(c, start) == base + (e + (t + s));
    LookupSkip(base, e + (t + s), "f_E");
    LookupSkip(base, e + (t + s), "f_TPR");
    LookupSkip(base, e + (t + s), "f_SB2");
    LookupEntry("f_E", c.fE, t + s);
    LookupSkip(e, t + s, "f_TPR");
    LookupSkip(e, t + s, "f_SB2");
    LookupEntry("f_TPR", c.fTPR, s);
    LookupSkip(t, s, "f_SB2");
    assert s == s + [];
    LookupEntry("f_SB2", c.fSB2, []);
  }

  /**
   * The optional filters read back from the query: the `f_E` value lists the
   * chosen experience levels in order, the `f_TPR` value gives back the seconds
   * and the `f_SB2` value names the salary floor.
   */
  lemma SearchQueryFilters(c: Config, start: int)
    requires c.Valid()
    ensures var q := SearchQuery(c, start);
      && (Lookup(q, "f_E").Some? <==> c.experienceLevels.Some? && |c.experienceLevels.value| > 0)
      && (Lookup(q, "f_E").Some? ==> DecodeLevelCodes(Render(Lookup(q, "f_E").value)) == c.experienceLevels)
      && (Lookup(q, "f_TPR").Some? <==> c.timeSincePost.Some?)
      && (Lookup(q, "f_TPR").Some? ==> DecodeTimeRange(Render(Lookup(q, "f_TPR").value)) == c.timeSincePost)
      && (Lookup(q, "f_SB2").Some? <==> c.salary.Some?)
      && (Lookup(q, "f_SB2").Some? ==> SalaryOfCode(Render(Lookup(q, "f_SB2").value)) == c.salary)
  {
    SearchQueryLookups(c, start);
    if c.experienceLevels.Some? && |c.experienceLevels.value| > 0 {
      LevelCodesNonEmpty(c.experienceLevels.value);
      LevelCodesRoundTrip(c.experienceLevels.value);
    }
    if c.timeSincePost.Some? {
      TimeRangeRoundTrip(c.timeSincePost.value);
    }
    if c.salary.Some? {
      SalaryCodeRoundTrip(c.salary.value);
    }
  }

  /**
   * The URL is the base, `?` and a query string that reads back, pair by pair
   * and in order, to the UTF-8 bytes of each key and value.
   */
  lemma SearchUrlRoundTrip(c: Config, start: int)
    ensures |SearchUrl(c, start)| > |BaseUrl| && SearchUrl(c, start)[..|BaseUrl| + 1] == BaseUrl + "?"
    ensures DecodeQuery(SearchUrl(c, start)[|BaseUrl| + 1..]) == Some(Utf8Pairs(SearchQuery(c, start)))
  {
    var url := SearchUrl(c, start);
    assert url[|BaseUrl| + 1..] == UrlEncode(SearchQuery(c, start));
    UrlEncodeRoundTrip(SearchQuery(c, start));
  }

  /** `build_search_url` as written: line 53 reads `config._f_SB2`, which exists only once a salary is set. */
  function SearchUrlAsWritten(c: Config, start: int): Result<string, AttributeError>
    reads c
  {
    if c.fSB2.None? then Failure(MissingAttribute("_f_SB2")) else Success(SearchUrl(c, start))
  }

  /** As written, every configuration without a salary makes `build_search_url` raise. */
  lemma SearchUrlAsWrittenNeedsSalary(c: Config, start: int)
    requires c.Valid()
    ensures SearchUrlAsWritten(c, start).Failure? <==> c.salary.None?
    ensures c.salary.Some? ==> SearchUrlAsWritten(c, start) == Success(SearchUrl(c, start))
  {
  }

  // ---- Job links on a results page ----

  const JobViewMarker := "/jobs/view/"

  /** `href.split("?")[0]`: the href up to, and without, its first `?`. */
  function StripQuery(href: string): (r: string)
    ensures '?' !in r
    ensures |r| <= |href| && href[..|r|] == r
    ensures |r| < |href| ==> href[|r|] == '?'
  {
    var parts := Split(href, '?');
    assert parts[0] == href[..IndexOf(href, '?')];
    parts[0]
  }

  /** The filter of the extraction loop: a non-empty href that contains "/jobs/view/". */
  predicate Accepts(href: Option<string>) {
    href.Some? && href.value != "" && Contains(href.value, JobViewMarker)
  }

  predicate NoDuplicates(s: seq<string>) {
    forall i, j :: 0 <= i < j < |s| ==> s[i] != s[j]
  }

  /** `list(set(xs))`: each element once. Python leaves the order unspecified; this picks first occurrences. */
  function Distinct(xs: seq<string>): (r: seq<string>)
    ensures NoDuplicates(r)
    ensures forall x :: x in r <==> x in xs
  {
    if |xs| == 0 then []
    else
      var rest := Distinct(xs[..|xs| - 1]);
      if xs[|xs| - 1] in rest then rest else rest + [xs[|xs| - 1]]
  }

  /** `l` is the stripped form of some accepted href. */
  ghost predicate IsJobLinkOf(l: string, hrefs: seq<Option<string>>) {
    exists k :: 0 <= k < |hrefs| && Accepts(hrefs[k]) && StripQuery(hrefs[k].value) == l
  }

  /** `links` holds each stripped, accepted href exactly once, and nothing else. */
  ghost predicate ExtractedFrom(links: seq<string>, hrefs: seq<Option<string>>) {
    && NoDuplicates(links)
    && forall l :: l in links <==> IsJobLinkOf(l, hrefs)
  }

  /** `scrape_job_links_from_search_page` over the hrefs of the job-card anchors; no accepted href gives `[]`. */
  method ExtractJobLinks(hrefs: seq<Option<string>>) returns (links: seq<string>)
    ensures ExtractedFrom(links, hrefs)
    ensures links == [] <==> forall k :: 0 <= k < |hrefs| ==> !Accepts(hrefs[k])
  {
    var jobLinks: seq<string> := [];
    for i := 0 to |hrefs|
      invariant forall l :: l in jobLinks <==> IsJobLinkOf(l, hrefs[..i])
    {
      var href := hrefs[i];
      if href.Some? && href.value != "" && Contains(href.value, JobViewMarker) {
        jobLinks := jobLinks + [StripQuery(href.value)];
      }
    }
    links := Distinct(jobLinks);
    forall k | 0 <= k < |hrefs| && Accepts(hrefs[k]) ensures StripQuery(hrefs[k].value) in links {
    }
    if links != [] {
      assert links[0] in links;
    }
  }

  // ---- One posting ----

  /**
   * What each text lookup of `scrape_job_details` yields: `None` when it raises
   * (no such element, or no text to strip). `loaded` says whether navigation and
   * the wait for the `h1` heading succeeded.
   */
  datatype DetailsPage = DetailsPage(
    loaded: bool,
    heading: Option<string>,
    orgName: Option<string>,
    firstFlavor: Option<string>,
    bullet: Option<string>,
    descriptionText: Option<string>)

  /** Why scraping a page raised. */
  datatype ScrapeError = PageNotLoaded | LookupFailed(selector: string) | TitleUnbound

  /**
   * `scrape_job_details(url)`. Title and company are read in one `try`; when
   * either lookup raises, the company is read from the first
   * `span.topcard__flavor` instead, and a failing heading leaves `title`
   * unbound, so the call raises. Location and description fall back to "".
   */
  function ScrapeJobDetails(url: string, page: DetailsPage): (r: Result<JobCard, ScrapeError>)
    ensures r.Success? <==> page.loaded && page.heading.Some? && (page.orgName.Some? || page.firstFlavor.Some?)
    ensures r.Success? ==> r.value.link == url
  {
    if !page.loaded then Failure(PageNotLoaded)
    else
      var title := if page.heading.Some? then Some(Strip(page.heading.value)) else None;
      var company :=
        if page.heading.Some? && page.orgName.Some? then Some(Strip(page.orgName.value))
        else if page.firstFlavor.Some? then Some(Strip(page.firstFlavor.value))
        else None;
      if company.None? then Failure(LookupFailed("span.topcard__flavor"))
      else
        var location := if page.bullet.Some? then Strip(page.bullet.value) else "";
        var description := if page.descriptionText.Some? then Strip(page.descriptionText.value) else "";
        if title.None? then Failure(TitleUnbound)
        else Success(JobCard(title.value, company.value, location, description, url))
  }

  /**
   * The card of a posting that scrapes holds the stripped texts: the title from
   * the heading, the company from the organisation link when heading and link
   * were both read and from the first flavour span otherwise, and location and
   * description when found, "" otherwise.
   */
  lemma ScrapeJobDetailsFields(url: string, page: DetailsPage)
    requires page.loaded && page.heading.Some? && (page.orgName.Some? || page.firstFlavor.Some?)
    ensures ScrapeJobDetails(url, page).Success?
    ensures var card := ScrapeJobDetails(url, page).value;
      && card.title == Strip(page.heading.value)
      && card.company == Strip(if page.orgName.Some? then page.orgName.value else page.firstFlavor.value)
      && card.location == (if page.bullet.Some? then Strip(page.bullet.value) else "")
      && card.description == (if page.descriptionText.Some? then Strip(page.descriptionText.value) else "")
  {
  }

  // ---- The bounded scraping loop ----

  /** The pages a scrape sees: the results page for each URL, and each posting's page. */
  datatype SearchPage = SearchPage(loaded: bool, hrefs: seq<Option<string>>)

  function Attempt(link: string, pages: string -> DetailsPage): Result<JobCard, ScrapeError> {
    ScrapeJobDetails(link, pages(link))
  }

  /** The cards of the links that scraped successfully, in the order the links were tried. */
  function Successes(links: seq<string>, pages: string -> DetailsPage): seq<JobCard> {
    if |links| == 0 then []
    else
      var last := Attempt(links[|links| - 1], pages);
      Successes(links[..|links| - 1], pages) + (if last.Success? then [last.value] else [])
  }

  function LinksOf(cards: seq<JobCard>): (r: seq<string>)
    ensures |r| == |cards| && forall k :: 0 <= k < |cards| ==> r[k] == cards[k].link
  {
    seq(|cards|, k requires 0 <= k < |cards| => cards[k].link)
  }

  /** `a` is `b` with some elements left out, the rest in their order. */
  predicate IsSubsequence(a: seq<string>, b: seq<string>) {
    || |a| == 0
    || (&& |b| > 0
        && (|| (a[|a| - 1] == b[|b| - 1] && IsSubsequence(a[..|a| - 1], b[..|b| - 1]))
            || IsSubsequence(a, b[..|b| - 1])))
  }

  lemma LinksOfAppend(cards: seq<JobCard>, card: JobCard)
    ensures LinksOf(cards + [card]) == LinksOf(cards) + [card.link]
  {
    assert LinksOf(cards + [card])[..|cards|] == LinksOf(cards);
  }

  /** A failed link is skipped and a successful one adds its card, so there are never more cards than links. */
  lemma {:induction false} SuccessesLength(links: seq<string>, pages: string -> DetailsPage)
    ensures |Successes(links, pages)| <= |links|
  {
    if |links| > 0 {
      SuccessesLength(links[..|links| - 1], pages);
    }
  }

  /** The cards' links are the tried links in the order they were tried, with the failures left out. */
  lemma {:induction false} SuccessesInOrder(links: seq<string>, pages: string -> DetailsPage)
    ensures IsSubsequence(LinksOf(Successes(links, pages)), links)
  {
    if |links| > 0 {
      var init := links[..|links| - 1];
      SuccessesInOrder(init, pages);
      var s := Successes(init, pages);
      var a := Attempt(links[|links| - 1], pages);
      if a.Success? {
        assert Successes(links, pages) == s + [a.value];
        LinksOfAppend(s, a.value);
        var ls := LinksOf(s) + [a.value.link];
        assert ls[..|ls| - 1] == LinksOf(s);
        assert ls[|ls| - 1] == links[|links| - 1];
      } else {
        assert Successes(links, pages) == s;
      }
    }
  }

  /** A link has a card among the results exactly when it was tried and its page scraped. */
  lemma {:induction false} SuccessesMembers(links: seq<string>, pages: string -> DetailsPage)
    ensures forall l :: l in LinksOf(Successes(links, pages)) <==> l in links && Attempt(l, pages).Success?
  {
    if |links| > 0 {
      var init := links[..|links| - 1];
      var last := links[|links| - 1];
      SuccessesMembers(init, pages);
      var s := Successes(init, pages);
      var a := Attempt(last, pages);
      assert links == init + [last];
      if a.Success? {
        LinksOfAppend(s, a.value);
      } else {
        assert Successes(links, pages) == s;
      }
    }
  }

  /** Trying one more link adds its card when it scrapes and nothing otherwise. */
  lemma SuccessesStep(links: seq<string>, i: int, pages: string -> DetailsPage)
    requires 0 <= i < |links|
    ensures var a := Attempt(links[i], pages);
      Successes(links[..i + 1], pages) == Successes(links[..i], pages) + (if a.Success? then [a.value] else [])
  {
    assert links[..i + 1][..i] == links[..i];
  }

  /** `links[:n]`: the first `n` links, or all of them when there are fewer. */
  function FirstN(links: seq<string>, n: nat): (r: seq<string>)
    ensures |r| <= n && |r| <= |links| && (|r| == n || r == links)
    ensures r == links[..|r|]
  {
    if n < |links| then links[..n] else links
  }

  /**
   * The loop of `scrape_linkedin_jobs`: each of the first `maxResults` links in
   * turn, keeping the cards that scrape; never more than `maxResults` of them.
   */
  method ScrapeJobs(links: seq<string>, maxResults: nat, pages: string -> DetailsPage) returns (results: seq<JobCard>)
    ensures results == Successes(FirstN(links, maxResults), pages)
    ensures |results| <= maxResults
  {
    var attempted := FirstN(links, maxResults);
    results := [];
    for i := 0 to |attempted|
      invariant results == Successes(attempted[..i], pages)
    {
      var job := Attempt(attempted[i], pages);
      SuccessesStep(attempted, i, pages);
      if job.Success? {
        results := results + [job.value];
      }
    }
    assert attempted[..|attempted|] == attempted;
    SuccessesLength(attempted, pages);
  }

  /**
   * `scrape_linkedin_jobs(config)`: loads the results page at the search URL
   * (a failure there propagates), extracts the job links, tries only the first
   * `max_results` of them and keeps the cards of those that scrape.
   */
  method ScrapeLinkedinJobs(c: Config, search: string -> SearchPage, pages: string -> DetailsPage)
    returns (links: seq<string>, r: Result<seq<JobCard>, ScrapeError>)
    requires c.maxResults >= 0
    ensures var page := search(SearchUrl(c, 0));
      && (r.Failure? <==> !page.loaded)
      && (r.Success? ==> ExtractedFrom(links, page.hrefs))
    ensures r.Success? ==> r.value == Successes(FirstN(links, c.maxResults), pages)
    ensures r.Success? ==> |r.value| <= c.maxResults
  {
    var url := BuildSearchUrl(c);
    var page := search(url);
    if !page.loaded {
      return [], Failure(PageNotLoaded);
    }
    links := ExtractJobLinks(page.hrefs);
    var results := ScrapeJobs(links, c.maxResults, pages);
    r := Success(results);
  }
}
