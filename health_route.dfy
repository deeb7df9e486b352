/**
 * `POST /api/health-check` (app/api/health-check/route.ts, lines 195-267):
 * normalising the target, assembling at most fifteen pages from the sitemap
 * and the homepage, checking each, and the summary statistics.
 */
module HealthRoute {
  import opened Wrappers
  import opened Text
  import opened Seqs
  import opened Http
  import opened Url
  import opened HealthCheck
  import opened PageDiscovery

  // ---------------------------------------------------------------- the target

  /** `url.trim()`, given `https://` unless it already starts with `http`. */
  function NormalizeTarget(url: string): (t: string)
    ensures StartsWith(t, "http")
    ensures EndsWith(t, Trim(url))
    ensures StartsWith(Trim(url), "http") ==> t == Trim(url)
    ensures !StartsWith(Trim(url), "http") ==> t == "https://" + Trim(url)
  {
    var trimmed := Trim(url);
    if StartsWith(trimmed, "http") then trimmed else "https://" + trimmed
  }

  /** Normalising a normalised target changes nothing. */
  lemma NormalizeTargetIdempotent(url: string)
    ensures NormalizeTarget(NormalizeTarget(url)) == NormalizeTarget(url)
  {
    var trimmed := Trim(url);
    TrimIdempotent(url);
    var t := NormalizeTarget(url);
    if !StartsWith(trimmed, "http") {
      assert t[0] == 'h';
      assert t[|t| - 1] == (if trimmed == [] then '/' else trimmed[|trimmed| - 1]);
      TrimOfTrimmed(t);
    }
  }

  /** The target with an `http://` or `https://` scheme, as the prefix test evidently intends. */
  predicate HasWebScheme(t: string) {
    StartsWith(t, "http://") || StartsWith(t, "https://")
  }

  /** As written, a bare host beginning with `http` is left without a scheme. */
  lemma BareHttpHostKeepsNoScheme()
    ensures NormalizeTarget("httpbin.org") == "httpbin.org"
    ensures !HasWebScheme(NormalizeTarget("httpbin.org"))
  {
    BareHttpHost();
  }

  lemma BareHttpHost()
    ensures Trim("httpbin.org") == "httpbin.org"
    ensures StartsWith("httpbin.org", "http") && !HasWebScheme("httpbin.org")
  {
    var u := "httpbin.org";
    TrimOfTrimmed(u);
    assert u[4] == 'b';
  }

  /** The intended normalisation: the `https://` prefix is added unless a web scheme is present. */
  function NormalizeTargetWithScheme(url: string): (t: string)
    ensures HasWebScheme(t)
    ensures EndsWith(t, Trim(url))
    ensures HasWebScheme(Trim(url)) ==> t == Trim(url)
    ensures !HasWebScheme(Trim(url)) ==> t == "https://" + Trim(url)
  {
    var trimmed := Trim(url);
    if HasWebScheme(trimmed) then trimmed else "https://" + trimmed
  }

  /** The corrected normalisation is idempotent too. */
  lemma NormalizeTargetWithSchemeIdempotent(url: string)
    ensures NormalizeTargetWithScheme(NormalizeTargetWithScheme(url)) == NormalizeTargetWithScheme(url)
  {
    var trimmed := Trim(url);
    if HasWebScheme(trimmed) {
      TrimIdempotent(url);
    } else {
      HttpsPrefixed(trimmed);
    }
  }

  /** `https://` in front of a trimmed string gives a trimmed string with a web scheme. */
  lemma HttpsPrefixed(x: string)
    requires x == [] || !IsSpace(x[|x| - 1])
    ensures Trim("https://" + x) == "https://" + x
    ensures HasWebScheme("https://" + x)
  {
    var t := "https://" + x;
    assert t[..8] == "https://";
    assert t[|t| - 1] == (if x == [] then '/' else x[|x| - 1]);
    TrimOfTrimmed(t);
  }

  lemma BareHttpHostGetsScheme()
    ensures NormalizeTargetWithScheme("httpbin.org") == "https://" + "httpbin.org"
  {
    BareHttpHost();
  }

  /** `target.replace(/^https?:\/\//, '')`. */
  function StripScheme(t: string): (r: string)
    ensures EndsWith(t, r)
    ensures StartsWith(t, "https://") ==> |r| == |t| - 8
    ensures !StartsWith(t, "https://") && StartsWith(t, "http://") ==> |r| == |t| - 7
    ensures !HasWebScheme(t) ==> r == t
  {
    if StartsWith(t, "https://") then t[8..]
    else if StartsWith(t, "http://") then t[7..]
    else t
  }

  // ---------------------------------------------------------------- the page list

  /** `pageUrls.includes(target) || pageUrls.some(u => u.includes(stripped target))`. */
  predicate CoversTarget(pages: seq<string>, target: string) {
    target in pages || exists k :: 0 <= k < |pages| && Contains(pages[k], StripScheme(target))
  }

  /** The sitemap pages, merged with the homepage links when there are fewer than five. */
  function Discovered(sitemap: seq<string>, homepage: seq<string>): seq<string> {
    if |sitemap| < 5 then Dedupe(sitemap + homepage) else Take(sitemap, 20)
  }

  /** The target in front unless the list covers it. */
  function WithTarget(pages: seq<string>, target: string): seq<string> {
    if CoversTarget(pages, target) then pages else [target] + pages
  }

  /** The pages the route checks, from the sitemap entries, the homepage links and the target. */
  function PageList(sitemap: seq<string>, homepage: seq<string>, target: string): seq<string> {
    Take(Take(Dedupe(WithTarget(Discovered(sitemap, homepage), target)), 20), 15)
  }

  /**
   * At most fifteen distinct pages, never none; each is a sitemap entry, a
   * homepage link or the target; the target comes first when it was added.
   */
  lemma PageListShape(sitemap: seq<string>, homepage: seq<string>, target: string)
    ensures var pages := PageList(sitemap, homepage, target);
      && 1 <= |pages| <= 15
      && NoDuplicates(pages)
      && (forall i :: 0 <= i < |pages| ==> pages[i] in sitemap || pages[i] in homepage || pages[i] == target)
      && (!CoversTarget(Discovered(sitemap, homepage), target) ==> pages[0] == target)
  {
    var merged := Discovered(sitemap, homepage);
    var withMain := WithTarget(merged, target);
    var d := Dedupe(withMain);
    assert |withMain| > 0 by {
      if merged == [] { assert !CoversTarget(merged, target); }
    }
    DedupeKeepsHead(withMain);
    TakeOfNoDuplicates(d, 20);
    TakeOfNoDuplicates(Take(d, 20), 15);
    var pages := PageList(sitemap, homepage, target);
    forall i | 0 <= i < |pages|
      ensures pages[i] in sitemap || pages[i] in homepage || pages[i] == target
    {
      assert pages[i] == d[i];
      assert d[i] in withMain;
      if d[i] != target {
        assert d[i] in merged;
        if |sitemap| < 5 {
          assert d[i] in sitemap + homepage;
        } else {
          assert d[i] in sitemap[..|merged|];
        }
      }
    }
  }

  /** A sitemap of five or more entries is used as it is, up to fifteen pages, when it lists the target. */
  lemma LargeSitemapListingTargetIsUsed(sitemap: seq<string>, homepage: seq<string>, target: string)
    requires |sitemap| >= 5 && NoDuplicates(sitemap) && target in Take(sitemap, 20)
    ensures PageList(sitemap, homepage, target) == Take(sitemap, 15)
  {
    var merged := Take(sitemap, 20);
    TakeOfNoDuplicates(sitemap, 20);
    DedupeOfNoDuplicates(merged);
    assert Take(merged, 15) == Take(sitemap, 15);
  }

  // ---------------------------------------------------------------- checks and statistics

  /** `checkUrl(u)` for the recorded outcome of fetching `u`. */
  function Checked(api: UrlApi, pageAt: string -> PageOutcome, u: string): PageHealth {
    HealthOf(api, u, pageAt(u))
  }

  datatype HealthStats = HealthStats(totalPages: nat, errors: nat, slow: nat, security: nat)

  predicate IsErrorPage(r: PageHealth) {
    r.status == Error
  }

  predicate IsSlowPage(r: PageHealth) {
    r.loadTime > 2500
  }

  const SecurityStatWords: seq<string> := ["security", "hacked"]

  /** Some issue mentions `security` or `hacked`. */
  predicate IsSecurityPage(r: PageHealth) {
    AnyMentions(r.issues, SecurityStatWords)
  }

  /** The `stats` object: the number of pages and of error, slow and security pages. */
  function Stats(pages: seq<PageHealth>): (s: HealthStats)
    ensures s.totalPages == |pages|
    ensures s.errors <= |pages| && s.slow <= |pages| && s.security <= |pages|
    ensures s.errors == 0 <==> forall i :: 0 <= i < |pages| ==> pages[i].status != Error
    ensures s.slow == 0 <==> forall i :: 0 <= i < |pages| ==> pages[i].loadTime <= 2500
  {
    var errors := Filter(IsErrorPage, pages);
    var slow := Filter(IsSlowPage, pages);
    assert errors != [] ==> errors[0] in pages;
    assert slow != [] ==> slow[0] in pages;
    HealthStats(|pages|, |errors|, |slow|, Count(IsSecurityPage, pages))
  }

  /** The least index of a result for `target`. */
  function FirstFor(pages: seq<PageHealth>, target: string): (k: Option<nat>)
    ensures k.None? <==> forall i :: 0 <= i < |pages| ==> pages[i].url != target
    ensures k.Some? ==>
      && k.value < |pages| && pages[k.value].url == target
      && forall i :: 0 <= i < k.value ==> pages[i].url != target
  {
    if |pages| == 0 then None
    else if pages[0].url == target then Some(0)
    else
      var k := FirstFor(pages[1..], target);
      if k.None? then None else Some(k.value + 1)
  }

  /** `results.find(r => r.url === target) || results[0]`. */
  function MainResult(pages: seq<PageHealth>, target: string): PageHealth
    requires |pages| > 0
  {
    var k := FirstFor(pages, target);
    if k.Some? then pages[k.value] else pages[0]
  }

  datatype HealthResponse =
    | HealthRejected(status: nat, error: string)
    | HealthReport(main: PageHealth, pages: seq<PageHealth>, stats: HealthStats)

  /** The pages the route checks for a normalised target. */
  function TargetPages(api: UrlApi, target: string, sitemap: string -> SitemapFetch, homepage: HomepageFetch)
    : seq<string>
  {
    PageList(SitemapUrls(api, target, sitemap), HomepageLinks(api, target, 15, homepage), target)
  }

  /** The main result is the target's own when the target is among the checked pages. */
  lemma MainIsTargetPage(api: UrlApi, pageAt: string -> PageOutcome, pageUrls: seq<string>, target: string)
    requires target in pageUrls
    ensures MainResult(CheckedPages(api, pageAt, pageUrls), target).url == target
  {
    var results := CheckedPages(api, pageAt, pageUrls);
    var k :| 0 <= k < |pageUrls| && pageUrls[k] == target;
    assert results[k].url == target;
  }

  /** The results, in order, of checking each page. */
  function CheckedPages(api: UrlApi, pageAt: string -> PageOutcome, pageUrls: seq<string>): (rs: seq<PageHealth>)
    ensures |rs| == |pageUrls|
    ensures forall i :: 0 <= i < |pageUrls| ==> rs[i] == HealthOf(api, pageUrls[i], pageAt(pageUrls[i]))
  {
    MapSeq((u: string) => Checked(api, pageAt, u), pageUrls)
  }

  lemma CheckedPagesSnoc(api: UrlApi, pageAt: string -> PageOutcome, pageUrls: seq<string>, u: string)
    ensures CheckedPages(api, pageAt, pageUrls + [u]) == CheckedPages(api, pageAt, pageUrls) + [Checked(api, pageAt, u)]
  {
    MapSnoc((u: string) => Checked(api, pageAt, u), pageUrls, u);
  }

  /** The batch loop: fifteen pages at a time, each checked with `checkUrl`. */
  method CheckPages(api: UrlApi, pageUrls: seq<string>, pageAt: string -> PageOutcome)
    returns (results: seq<PageHealth>)
    ensures results == CheckedPages(api, pageAt, pageUrls)
  {
    var batchSize := 15;
    results := [];
    var i := 0;
    while i < |pageUrls|
      invariant 0 <= i <= |pageUrls|
      invariant results == CheckedPages(api, pageAt, pageUrls[..i])
      decreases |pageUrls| - i
    {
      var end := if i + batchSize <= |pageUrls| then i + batchSize else |pageUrls|;
      results := CheckBatch(api, pageUrls, i, end, pageAt, results);
      // `i += batchSize` overshoots only on the last batch, which ends at the end of the list.
      i := end;
    }
    assert pageUrls[..i] == pageUrls;
  }

  /** `Promise.all(batch.map(u => checkUrl(u)))` appended to the results. */
  method CheckBatch(api: UrlApi, pageUrls: seq<string>, start: nat, end: nat, pageAt: string -> PageOutcome,
                    before: seq<PageHealth>)
    returns (results: seq<PageHealth>)
    requires start <= end <= |pageUrls|
    requires before == CheckedPages(api, pageAt, pageUrls[..start])
    ensures results == CheckedPages(api, pageAt, pageUrls[..end])
  {
    var batch := pageUrls[start..end];
    results := before;
    var j := 0;
    while j < |batch|
      invariant 0 <= j <= |batch|
      invariant results == CheckedPages(api, pageAt, pageUrls[..start + j])
    {
      var h := CheckUrl(api, batch[j], pageAt(batch[j]));
      assert h == Checked(api, pageAt, batch[j]);
      assert batch[j] == pageUrls[start + j];
      assert pageUrls[..start + j + 1] == pageUrls[..start + j] + [batch[j]];
      CheckedPagesSnoc(api, pageAt, pageUrls[..start + j], batch[j]);
      results := results + [h];
      j := j + 1;
    }
    assert start + j == end;
  }

  /** Discovery and the page list: the sitemap, the homepage when the sitemap is small, the target, the caps. */
  method AssemblePages(api: UrlApi, targetUrl: string, sitemap: string -> SitemapFetch, homepage: HomepageFetch)
    returns (pageUrls: seq<string>)
    ensures pageUrls == TargetPages(api, targetUrl, sitemap, homepage)
  {
    pageUrls := AssembleDiscovered(api, targetUrl, sitemap, homepage);
    ghost var discovered := pageUrls;
    if !CoversTarget(pageUrls, targetUrl) {
      pageUrls := [targetUrl] + pageUrls;
    }
    assert pageUrls == WithTarget(discovered, targetUrl);
    pageUrls := Dedupe(pageUrls);
    ghost var distinct := pageUrls;
    if |pageUrls| > 20 {
      pageUrls := pageUrls[..20];
    }
    assert pageUrls == Take(distinct, 20);
    ghost var first20 := pageUrls;
    if |pageUrls| > 15 {
      pageUrls := pageUrls[..15];
    }
    assert pageUrls == Take(first20, 15);
  }

  method AssembleDiscovered(api: UrlApi, targetUrl: string, sitemap: string -> SitemapFetch, homepage: HomepageFetch)
    returns (pageUrls: seq<string>)
    ensures pageUrls == Discovered(SitemapUrls(api, targetUrl, sitemap), HomepageLinks(api, targetUrl, 15, homepage))
  {
    var requested;
    pageUrls, requested := FetchSitemap(api, targetUrl, sitemap);
    if |pageUrls| < 5 {
      var discoveredUrls := ScanHomepageLinks(api, targetUrl, 15, homepage);
      pageUrls := Dedupe(pageUrls + discoveredUrls);
    } else {
      if |pageUrls| > 20 {
        pageUrls := pageUrls[..20];
      }
    }
  }

  /**
   * The handler. `url` is the `url` field of the request body; `sitemap`,
   * `homepage` and `pageAt` are the outcomes of the sitemap request, the
   * homepage scan request and each page's request. The target gets
   * `https://` unless it has an `http://` or `https://` scheme, the corrected
   * form of the `startsWith("http")` test.
   */
  method HealthPost(api: UrlApi, url: BodyField, sitemap: string -> SitemapFetch, homepage: HomepageFetch,
                    pageAt: string -> PageOutcome)
    returns (resp: HealthResponse)
    ensures (url.Absent? || url == NonString(false) || url == Str("")) ==>
      resp == HealthRejected(400, "URL is required")
    ensures url == NonString(true) ==> resp == HealthRejected(500, "url.trim is not a function")
    ensures url.Str? && url.value != "" ==>
      var target := NormalizeTargetWithScheme(url.value);
      var pages := TargetPages(api, target, sitemap, homepage);
      && resp.HealthReport?
      && resp.pages == CheckedPages(api, pageAt, pages)
      && 1 <= |resp.pages| <= 15
      && resp.stats == Stats(resp.pages)
      && resp.main == MainResult(resp.pages, target)
  {
    if url.Absent? || url == NonString(false) || url == Str("") {
      return HealthRejected(400, "URL is required");
    }
    if url.NonString? {
      // Calling `trim` on a non-string throws a TypeError; the outer `catch` answers 500.
      return HealthRejected(500, "url.trim is not a function");
    }
    var targetUrl := Trim(url.value);
    if !(StartsWith(targetUrl, "http://") || StartsWith(targetUrl, "https://")) {
      targetUrl := "https://" + targetUrl;
    }
    var pageUrls := AssemblePages(api, targetUrl, sitemap, homepage);
    PageListShape(SitemapUrls(api, targetUrl, sitemap), HomepageLinks(api, targetUrl, 15, homepage), targetUrl);
    var results := CheckPages(api, pageUrls, pageAt);
    resp := HealthReport(MainResult(results, targetUrl), results, Stats(results));
  }
}
