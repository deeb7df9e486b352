/**
 * Page discovery for `POST /api/health-check` (app/api/health-check/route.ts):
 * `fetchSitemap`, which collects the `<loc>` entries of `/sitemap.xml`, and
 * `scanHomepageLinks`, which collects same-site links from the homepage.
 */
module PageDiscovery {
  import opened Wrappers
  import opened Text
  import opened Seqs
  import opened Http
  import opened Url

  // ---------------------------------------------------------------- the <loc> scanner

  /** The characters `.` does not match: the ECMAScript LineTerminator code points. */
  predicate IsLineTerminator(c: char) {
    c == '\n' || c == '\r' || c as int == 0x2028 || c as int == 0x2029
  }

  /** The first index at or after `i` where `</loc>` starts or a line terminator stands, or the end. */
  function LocStop(text: string, i: nat): (j: nat)
    requires i <= |text|
    ensures i <= j <= |text|
    ensures forall k :: i <= k < j ==> !IsLineTerminator(text[k])
    decreases |text| - i
  {
    if i == |text| || StartsWith(text[i..], "</loc>") || IsLineTerminator(text[i]) then i
    else LocStop(text, i + 1)
  }

  datatype LocMatch = LocMatch(capture: string, end: nat)

  /**
   * The match of `/<loc>(.*?)<\/loc>/` starting at `p`: the lazy group ends at
   * the first `</loc>`, and there is no match when a line terminator comes first.
   */
  function LocAt(text: string, p: nat): (m: Option<LocMatch>)
    requires p <= |text|
    ensures m.Some? ==> p < m.value.end <= |text|
    ensures m.Some? ==> forall k :: 0 <= k < |m.value.capture| ==> !IsLineTerminator(m.value.capture[k])
  {
    if StartsWith(text[p..], "<loc>") then
      var j := LocStop(text, p + 5);
      if StartsWith(text[j..], "</loc>") then Some(LocMatch(text[p + 5..j], j + 6)) else None
    else None
  }

  /** `regex.exec` with `lastIndex == pos`. */
  function NextLoc(text: string, pos: nat): (m: Option<LocMatch>)
    requires pos <= |text|
    ensures m.Some? ==> pos < m.value.end <= |text|
    decreases |text| - pos
  {
    var here := LocAt(text, pos);
    if here.Some? then here
    else if pos == |text| then None
    else NextLoc(text, pos + 1)
  }

  /** The captures of the successive matches from `pos` on. */
  function Locs(text: string, pos: nat): seq<string>
    requires pos <= |text|
    decreases |text| - pos
  {
    match NextLoc(text, pos)
    case None => []
    case Some(m) => [m.capture] + Locs(text, m.end)
  }

  // ---------------------------------------------------------------- fetchSitemap

  predicate IsPageEntry(u: string) {
    !EndsWith(u, ".xml")
  }

  /** The trimmed captures from `pos` on that do not name another sitemap. */
  function EntriesFrom(text: string, pos: nat): seq<string>
    requires pos <= |text|
  {
    Filter(IsPageEntry, MapSeq(Trim, Locs(text, pos)))
  }

  /** The trimmed `<loc>` entries of a sitemap that do not name another sitemap, in document order. */
  function SitemapEntries(text: string): (es: seq<string>)
    ensures forall i :: 0 <= i < |es| ==> IsPageEntry(es[i]) && es[i] in MapSeq(Trim, Locs(text, 0))
    ensures forall k :: 0 <= k < |Locs(text, 0)| && IsPageEntry(Trim(Locs(text, 0)[k])) ==> Trim(Locs(text, 0)[k]) in es
  {
    EntriesFrom(text, 0)
  }

  /** One `exec` step: the entries from `pos` are the current match's, if kept, then those after it. */
  lemma EntriesStep(text: string, pos: nat, m: LocMatch)
    requires pos <= |text| && NextLoc(text, pos) == Some(m)
    ensures EntriesFrom(text, pos)
      == (if IsPageEntry(Trim(m.capture)) then [Trim(m.capture)] else []) + EntriesFrom(text, m.end)
  {
    assert Locs(text, pos) == [m.capture] + Locs(text, m.end);
    MapCons(Trim, m.capture, Locs(text, m.end));
    FilterCons(IsPageEntry, Trim(m.capture), MapSeq(Trim, Locs(text, m.end)));
  }

  /** The sitemap request: it threw (or timed out), or answered with a status and body. */
  datatype SitemapFetch = SitemapThrew | SitemapAnswered(status: nat, body: string)

  /** What `fetchSitemap(baseUrl)` returns. */
  function SitemapUrls(api: UrlApi, baseUrl: string, fetch: string -> SitemapFetch): seq<string> {
    match api.resolve("/sitemap.xml", baseUrl)
    case None => []
    case Some(at) =>
      match fetch(at)
      case SitemapThrew => []
      case SitemapAnswered(status, body) => if Ok(status) then SitemapEntries(body) else []
  }

  /**
   * `fetchSitemap(baseUrl)`. `fetch` is the outcome of the GET of the
   * address `/sitemap.xml` resolves to; `requested` lists that address when
   * it was requested.
   */
  method FetchSitemap(api: UrlApi, baseUrl: string, fetch: string -> SitemapFetch)
    returns (urls: seq<string>, requested: seq<string>)
    ensures urls == SitemapUrls(api, baseUrl, fetch)
    ensures api.resolve("/sitemap.xml", baseUrl).None? ==> urls == [] && requested == []
    ensures api.resolve("/sitemap.xml", baseUrl).Some? ==>
      var at := api.resolve("/sitemap.xml", baseUrl).value;
      && requested == [at]
      && (fetch(at).SitemapAnswered? && Ok(fetch(at).status) ==> urls == SitemapEntries(fetch(at).body))
      && (!(fetch(at).SitemapAnswered? && Ok(fetch(at).status)) ==> urls == [])
  {
    var sitemapUrl := api.resolve("/sitemap.xml", baseUrl);
    if sitemapUrl.None? {
      return [], [];
    }
    requested := [sitemapUrl.value];
    var res := fetch(sitemapUrl.value);
    if res.SitemapThrew? || !Ok(res.status) {
      return [], requested;
    }
    urls := SitemapLocs(res.body);
  }

  /** The `exec` loop of `fetchSitemap` over the response text. */
  method SitemapLocs(text: string) returns (urls: seq<string>)
    ensures urls == SitemapEntries(text)
  {
    urls := [];
    var pos := 0;
    while true
      invariant pos <= |text|
      invariant urls + EntriesFrom(text, pos) == EntriesFrom(text, 0)
      decreases |text| - pos
    {
      var m := NextLoc(text, pos);
      if m.None? {
        assert EntriesFrom(text, pos) == [];
        break;
      }
      var foundUrl := Trim(m.value.capture);
      EntriesStep(text, pos, m.value);
      ghost var rest := EntriesFrom(text, m.value.end);
      if !EndsWith(foundUrl, ".xml") {
        assert EntriesFrom(text, pos) == [foundUrl] + rest;
        AppendAssoc(urls, foundUrl, rest);
        urls := urls + [foundUrl];
      } else {
        assert EntriesFrom(text, pos) == [] + rest;
        assert [] + rest == rest;
      }
      pos := m.value.end;
    }
  }

  // ---------------------------------------------------------------- scanHomepageLinks

  /** Hrefs skipped with `continue`: empty, fragment, `javascript:` and `mailto:` links. */
  predicate SkippedHref(h: string) {
    h == "" || StartsWith(h, "#") || StartsWith(h, "javascript:") || StartsWith(h, "mailto:")
  }

  const AssetExtensions: seq<string> :=
    ["jpg", "jpeg", "png", "gif", "pdf", "zip", "css", "js", "xml", "json", "svg", "ico"]

  /** `/\.(jpg|…|ico)$/i`: the URL ends in one of the asset extensions, in any ASCII case. */
  predicate IsAsset(u: string) {
    exists k :: 0 <= k < |AssetExtensions| && EndsWith(Lower(u), "." + AssetExtensions[k])
  }

  /** A URL is kept when it is same-site, new and not an asset. */
  predicate Keeps(sameSite: string -> bool, found: seq<string>, u: string) {
    sameSite(u) && u !in found && !IsAsset(u)
  }

  /**
   * The loop of `scanHomepageLinks` over the anchor captures, from the links
   * `found` so far. `sameSite` is the test a resolved URL must pass; the
   * source's is `fullUrl.startsWith(baseOrigin)`.
   */
  function ScanFrom(api: UrlApi, home: string, sameSite: string -> bool, maxLinks: nat,
                    anchors: seq<string>, found: seq<string>): seq<string>
    decreases |anchors|
  {
    if |anchors| == 0 then found
    else
      var href := anchors[0];
      if SkippedHref(href) then ScanFrom(api, home, sameSite, maxLinks, anchors[1..], found)
      else
        var full := api.resolve(href, home);
        var next := if full.Some? && Keeps(sameSite, found, full.value) then found + [full.value] else found;
        if |next| >= maxLinks then next else ScanFrom(api, home, sameSite, maxLinks, anchors[1..], next)
  }

  function Max1(n: nat): nat {
    if n >= 1 then n else 1
  }

  /** The scan keeps what it found, adds only distinct same-site non-asset URLs, and stops at the cap. */
  lemma {:induction false} ScanFromKeepsInvariant(api: UrlApi, home: string, sameSite: string -> bool, maxLinks: nat,
                                                   anchors: seq<string>, found: seq<string>)
    requires NoDuplicates(found)
    requires forall k :: 0 <= k < |found| ==> sameSite(found[k]) && !IsAsset(found[k])
    requires |found| < maxLinks || found == []
    ensures var r := ScanFrom(api, home, sameSite, maxLinks, anchors, found);
      && NoDuplicates(r)
      && (forall k :: 0 <= k < |r| ==> sameSite(r[k]) && !IsAsset(r[k]))
      && |r| <= Max1(maxLinks)
      && found <= r
    decreases |anchors|
  {
    if |anchors| > 0 {
      var href := anchors[0];
      if SkippedHref(href) {
        ScanFromKeepsInvariant(api, home, sameSite, maxLinks, anchors[1..], found);
      } else {
        var full := api.resolve(href, home);
        var next := if full.Some? && Keeps(sameSite, found, full.value) then found + [full.value] else found;
        if |next| < maxLinks {
          ScanFromKeepsInvariant(api, home, sameSite, maxLinks, anchors[1..], next);
        }
      }
    }
  }

  /** The homepage request: it threw, or answered with a status and the successive anchor `href` captures. */
  datatype HomepageFetch = HomepageThrew | HomepageAnswered(status: nat, anchors: seq<string>)

  /** The `startsWith(baseOrigin)` test of the source, as a function of the base origin. */
  function OriginPrefix(baseOrigin: string): string -> bool {
    (u: string) => StartsWith(u, baseOrigin)
  }

  /** The intended test: the resolved URL parses and has the base origin. */
  function SameOrigin(api: UrlApi, baseOrigin: string): string -> bool {
    (u: string) => api.parse(u).Some? && api.parse(u).value.origin == baseOrigin
  }

  /**
   * What `scanHomepageLinks(homepageUrl, maxLinks)` returns as written, with
   * the prefix test: nothing when the request threw, failed or the homepage
   * does not parse; otherwise distinct non-asset URLs that start with the
   * base origin, at most `maxLinks` of them.
   */
  function PrefixHomepageLinks(api: UrlApi, homepageUrl: string, maxLinks: nat, fetch: HomepageFetch)
    : (r: seq<string>)
    ensures fetch.HomepageThrew? || !Ok(fetch.status) || api.parse(homepageUrl).None? ==> r == []
    ensures api.parse(homepageUrl).Some? ==> forall k :: 0 <= k < |r| ==>
      StartsWith(r[k], api.parse(homepageUrl).value.origin) && !IsAsset(r[k])
    ensures NoDuplicates(r) && (maxLinks >= 1 ==> |r| <= maxLinks)
  {
    if fetch.HomepageThrew? || !Ok(fetch.status) || api.parse(homepageUrl).None? then []
    else
      var origin := api.parse(homepageUrl).value.origin;
      ScanFromKeepsInvariant(api, homepageUrl, OriginPrefix(origin), maxLinks, fetch.anchors, []);
      ScanFrom(api, homepageUrl, OriginPrefix(origin), maxLinks, fetch.anchors, [])
  }

  /** The homepage links with the intended same-origin test; this is what the route uses. */
  function HomepageLinks(api: UrlApi, homepageUrl: string, maxLinks: nat, fetch: HomepageFetch): seq<string> {
    if fetch.HomepageThrew? || !Ok(fetch.status) || api.parse(homepageUrl).None? then []
    else ScanFrom(api, homepageUrl, SameOrigin(api, api.parse(homepageUrl).value.origin), maxLinks, fetch.anchors, [])
  }

  /**
   * Nothing is returned when the request threw or failed or the homepage does
   * not parse; the returned URLs are distinct, have the homepage's origin, are
   * not assets, and number at most `maxLinks`.
   */
  lemma HomepageLinksBounded(api: UrlApi, homepageUrl: string, maxLinks: nat, fetch: HomepageFetch)
    ensures var r := HomepageLinks(api, homepageUrl, maxLinks, fetch);
      && NoDuplicates(r)
      && (fetch.HomepageThrew? || !Ok(fetch.status) || api.parse(homepageUrl).None? ==> r == [])
      && (api.parse(homepageUrl).Some? ==> forall k :: 0 <= k < |r| ==>
            && api.parse(r[k]).Some? && api.parse(r[k]).value.origin == api.parse(homepageUrl).value.origin
            && !IsAsset(r[k]))
      && (maxLinks >= 1 ==> |r| <= maxLinks)
  {
    if !(fetch.HomepageThrew? || !Ok(fetch.status) || api.parse(homepageUrl).None?) {
      var origin := api.parse(homepageUrl).value.origin;
      ScanFromKeepsInvariant(api, homepageUrl, SameOrigin(api, origin), maxLinks, fetch.anchors, []);
    }
  }

  /**
   * `scanHomepageLinks`: the `exec` loop over the anchors, with `continue`
   * for skipped hrefs, the swallowed TypeError of an unresolvable href, and
   * the `break` once `maxLinks` URLs are found. The same-site test compares
   * the parsed origin of the resolved URL with the base origin.
   */
  method ScanHomepageLinks(api: UrlApi, homepageUrl: string, maxLinks: nat, fetch: HomepageFetch)
    returns (foundUrls: seq<string>)
    ensures foundUrls == HomepageLinks(api, homepageUrl, maxLinks, fetch)
  {
    if fetch.HomepageThrew? || !Ok(fetch.status) {
      return [];
    }
    var base := api.parse(homepageUrl);
    if base.None? {
      return [];
    }
    var baseOrigin := base.value.origin;
    ghost var sameSite := SameOrigin(api, baseOrigin);
    var anchors := fetch.anchors;
    foundUrls := [];
    var i := 0;
    while i < |anchors|
      invariant 0 <= i <= |anchors|
      invariant ScanFrom(api, homepageUrl, sameSite, maxLinks, anchors[i..], foundUrls)
             == ScanFrom(api, homepageUrl, sameSite, maxLinks, anchors, [])
    {
      var href := anchors[i];
      assert anchors[i..][1..] == anchors[i + 1..];
      if href == "" || StartsWith(href, "#") || StartsWith(href, "javascript:") || StartsWith(href, "mailto:") {
        i := i + 1;
        continue;
      }
      var fullUrl := api.resolve(href, homepageUrl);
      if fullUrl.Some? {
        var parsed := api.parse(fullUrl.value);
        if parsed.Some? && parsed.value.origin == baseOrigin && fullUrl.value !in foundUrls {
          if !IsAsset(fullUrl.value) {
            foundUrls := foundUrls + [fullUrl.value];
          }
        }
      }
      if |foundUrls| >= maxLinks {
        break;
      }
      i := i + 1;
    }
    assert anchors[|anchors|..] == [];
  }

  // ---------------------------------------------------------------- the prefix test against the origin test

  /**
   * As written, a link to another host whose origin merely starts with the
   * base origin is collected: `https://a.company.com/` from `https://a.com`.
   */
  lemma OriginPrefixAdmitsOtherHost(api: UrlApi)
    requires api.parse("https://a.com") == Some(UrlParts("https://a.com/", "https://a.com", "a.com", "/"))
    requires api.resolve("https://a.company.com/", "https://a.com") == Some("https://a.company.com/")
    requires api.parse("https://a.company.com/")
      == Some(UrlParts("https://a.company.com/", "https://a.company.com", "a.company.com", "/"))
    ensures PrefixHomepageLinks(api, "https://a.com", 15, HomepageAnswered(200, ["https://a.company.com/"]))
      == ["https://a.company.com/"]
    ensures HomepageLinks(api, "https://a.com", 15, HomepageAnswered(200, ["https://a.company.com/"])) == []
  {
    var u := "https://a.company.com/";
    CompanyUrlIsNotAsset();
    assert !SkippedHref(u) by { assert u[0] == 'h'; }
    ScanOneAnchor(api, "https://a.com", OriginPrefix("https://a.com"), 15, u, u);
    assert StartsWith(u, "https://a.com") by { assert u[..13] == "https://a.com"; }
    ScanOneAnchor(api, "https://a.com", SameOrigin(api, "https://a.com"), 15, u, u);
    assert "https://a.company.com" != "https://a.com" by { assert |"https://a.company.com"| != |"https://a.com"|; }
  }

  lemma CompanyUrlIsNotAsset()
    ensures !IsAsset("https://a.company.com/")
  {
    var u := "https://a.company.com/";
    assert Lower(u) == u;
    forall k | 0 <= k < |AssetExtensions| ensures !EndsWith(u, "." + AssetExtensions[k]) {
      assert u[|u| - 1] == '/';
    }
  }

  /** A scan of a single resolvable, non-asset anchor keeps it exactly when it is same-site. */
  lemma ScanOneAnchor(api: UrlApi, home: string, sameSite: string -> bool, maxLinks: nat, href: string, full: string)
    requires !SkippedHref(href) && api.resolve(href, home) == Some(full) && !IsAsset(full)
    ensures ScanFrom(api, home, sameSite, maxLinks, [href], []) == if sameSite(full) then [full] else []
  {
    assert [href][1..] == [];
  }
}
