/**
 * `POST /api/check-links` (app/api/check-links/route.ts): the skip list and
 * status classification of `checkLink`, the `href` scan and the
 * filter/absolutise/internal/dedupe pipeline of `extractLinks`, and the
 * request handler that checks at most 100 links in order.
 */
module CheckLinks {
  import opened Wrappers
  import opened Text
  import opened Seqs
  import opened Http
  import opened Url

  datatype Category = Success | Broken | Warning | Skipped

  datatype LinkResult = LinkResult(
    url: string,
    status: Option<nat>,
    statusText: string,
    isValid: bool,
    isBroken: bool,
    category: Category,
    foundOn: Option<string>)

  /** What the GET of one link gave: a response, or a thrown value. */
  datatype LinkFetch = Responded(status: nat, statusText: string) | Threw(thrown: Thrown)

  /** Paths containing any of these (after lower-casing) are not requested. */
  const SkipPatterns: seq<string> := [
    "xmlrpc.php", "wp-json", "wp-admin", "wp-login", "wp-content",
    "/feed", "/rss", "robots.txt", "sitemap.xml", ".xml"]

  predicate IsSkippedPath(pathname: string) {
    exists k :: 0 <= k < |SkipPatterns| && Contains(Lower(pathname), SkipPatterns[k])
  }

  /** `checkLink` issues its GET exactly for a parsable URL whose path is not on the skip list. */
  predicate IssuesRequest(api: UrlApi, url: string) {
    api.parse(url).Some? && !IsSkippedPath(api.parse(url).value.pathname)
  }

  /** The `isValid`/`isBroken`/`category` ladder over a response status. */
  datatype Verdict = Verdict(isValid: bool, isBroken: bool, category: Category)

  function ClassifyStatus(status: nat): (v: Verdict)
    ensures 200 <= status < 400 ==> v == Verdict(true, false, Success)
    ensures (status == 404 || status >= 500) ==> v == Verdict(false, true, Broken)
    ensures !(200 <= status < 400) && status != 404 && status < 500 ==> v == Verdict(false, false, Warning)
  {
    if 200 <= status < 300 then Verdict(true, false, Success)
    else if 300 <= status < 400 then Verdict(true, false, Success)
    else if status == 404 then Verdict(false, true, Broken)
    else if status >= 500 then Verdict(false, true, Broken)
    else Verdict(false, false, Warning)
  }

  /** The three flags always agree: broken exactly for `Broken`, valid exactly for `Success` and `Skipped`. */
  predicate Consistent(r: LinkResult) {
    && (r.isBroken <==> r.category == Broken)
    && (r.isValid <==> r.category == Success || r.category == Skipped)
  }

  function CaughtResult(url: string, t: Thrown): LinkResult {
    LinkResult(url, None, if IsAbort(t) then "Timeout" else "Network Error", false, false, Warning, None)
  }

  /**
   * `checkLink`. `response` is what the GET would give; it is consulted only
   * when `IssuesRequest` holds. An unparsable URL throws a TypeError inside
   * the `try` and ends in the `catch`.
   */
  function CheckLink(api: UrlApi, url: string, response: LinkFetch): (r: LinkResult)
    ensures r.url == url && r.foundOn == None
    ensures Consistent(r)
    ensures api.parse(url).None? ==>
      r == LinkResult(url, None, "Network Error", false, false, Warning, None)
    ensures api.parse(url).Some? && IsSkippedPath(api.parse(url).value.pathname) ==>
      r == LinkResult(url, None, "Skipped", true, false, Skipped, None)
    ensures IssuesRequest(api, url) && response.Responded? ==>
      && r.status == Some(response.status)
      && Verdict(r.isValid, r.isBroken, r.category) == ClassifyStatus(response.status)
      && (response.statusText != "" ==> r.statusText == response.statusText)
      && (response.statusText == "" ==> r.statusText == "HTTP " + NatToString(response.status))
    ensures IssuesRequest(api, url) && response.Threw? ==>
      && r.status == None && r.category == Warning
      && (r.statusText == "Timeout" <==> IsAbort(response.thrown))
      && (r.statusText != "Timeout" ==> r.statusText == "Network Error")
  {
    match api.parse(url)
    case None => CaughtResult(url, Thrown(true, "TypeError", "Invalid URL"))
    case Some(parts) =>
      if IsSkippedPath(parts.pathname) then
        LinkResult(url, None, "Skipped", true, false, Skipped, None)
      else
        match response
        case Threw(t) => CaughtResult(url, t)
        case Responded(status, statusText) =>
          var v := ClassifyStatus(status);
          LinkResult(url, Some(status), if statusText != "" then statusText else "HTTP " + NatToString(status),
                     v.isValid, v.isBroken, v.category, None)
  }

  /** A link that is not requested gets the same result whatever the network would have said. */
  lemma UnrequestedLinkIgnoresNetwork(api: UrlApi, url: string, r1: LinkFetch, r2: LinkFetch)
    requires !IssuesRequest(api, url)
    ensures CheckLink(api, url, r1) == CheckLink(api, url, r2)
  {
  }

  /** A 410 Gone or 429 Too Many Requests is a warning, neither valid nor broken. */
  lemma GoneIsAWarning(status: nat)
    requires status == 410 || status == 429 || status == 401 || status == 403
    ensures ClassifyStatus(status) == Verdict(false, false, Warning)
  {
  }

  // ---------------------------------------------------------------- the href scanner

  predicate IsQuote(c: char) {
    c == '"' || c == '\''
  }

  /** The first index at or after `i` that is not white space. */
  function SkipSpaces(text: string, i: nat): (j: nat)
    requires i <= |text|
    ensures i <= j <= |text|
    ensures forall k :: i <= k < j ==> IsSpace(text[k])
    ensures j < |text| ==> !IsSpace(text[j])
    decreases |text| - i
  {
    if i < |text| && IsSpace(text[i]) then SkipSpaces(text, i + 1) else i
  }

  /** The first index at or after `i` holding a quote, or the end of the text. */
  function QuoteAtOrAfter(text: string, i: nat): (j: nat)
    requires i <= |text|
    ensures i <= j <= |text|
    ensures forall k :: i <= k < j ==> !IsQuote(text[k])
    ensures j < |text| ==> IsQuote(text[j])
    decreases |text| - i
  {
    if i < |text| && !IsQuote(text[i]) then QuoteAtOrAfter(text, i + 1) else i
  }

  /** A match of `/href\s*=\s*["']([^"']+)["']/i`: its capture and the index just past it. */
  datatype HrefMatch = HrefMatch(capture: string, end: nat)

  /**
   * The match starting at `p`, if any. The pattern backtracks into nothing:
   * `\s*` cannot give up a space to `=` or a quote, nor `[^"']+` a non-quote
   * to the closing quote, so the greedy reading is the only one.
   */
  function HrefAt(text: string, p: nat): (m: Option<HrefMatch>)
    requires p <= |text|
    ensures m.Some? ==> p < m.value.end <= |text| && |m.value.capture| > 0
    ensures m.Some? ==> forall k :: 0 <= k < |m.value.capture| ==> !IsQuote(m.value.capture[k])
  {
    if p + 4 <= |text| && Lower(text[p..p + 4]) == "href" then
      var a := SkipSpaces(text, p + 4);
      if a < |text| && text[a] == '=' then
        var b := SkipSpaces(text, a + 1);
        if b < |text| && IsQuote(text[b]) then
          var c := QuoteAtOrAfter(text, b + 1);
          if b + 1 < c < |text| then Some(HrefMatch(text[b + 1..c], c + 1)) else None
        else None
      else None
    else None
  }

  /** `linkRegex.exec` with `lastIndex == pos`: the leftmost match starting at or after `pos`. */
  function NextHref(text: string, pos: nat): (m: Option<HrefMatch>)
    requires pos <= |text|
    ensures m.Some? ==> pos < m.value.end <= |text| && |m.value.capture| > 0
    ensures m.Some? ==> forall k :: 0 <= k < |m.value.capture| ==> !IsQuote(m.value.capture[k])
    decreases |text| - pos
  {
    var here := HrefAt(text, pos);
    if here.Some? then here
    else if pos == |text| then None
    else NextHref(text, pos + 1)
  }

  /** The captures of every match from `pos` on, each search resuming where the previous match ended. */
  function Hrefs(text: string, pos: nat): (hs: seq<string>)
    requires pos <= |text|
    ensures forall i :: 0 <= i < |hs| ==> |hs[i]| > 0
    ensures forall i, k :: 0 <= i < |hs| && 0 <= k < |hs[i]| ==> !IsQuote(hs[i][k])
    decreases |text| - pos
  {
    match NextHref(text, pos)
    case None => []
    case Some(m) => [m.capture] + Hrefs(text, m.end)
  }

  // ---------------------------------------------------------------- extractLinks

  /** The href filter of the regex loop. */
  predicate IsNavigableHref(href: string) {
    && |href| > 0
    && !StartsWith(href, "javascript:")
    && !StartsWith(href, "mailto:")
    && !StartsWith(href, "tel:")
    && !StartsWith(href, "#")
  }

  /** The `map` step: absolute links stay, protocol-relative ones get `https:`, the rest resolve against the base. */
  function Absolutize(api: UrlApi, link: string, baseUrl: string): Option<string> {
    if StartsWith(link, "http://") || StartsWith(link, "https://") then Some(link)
    else if StartsWith(link, "//") then Some("https:" + link)
    else api.resolve(link, baseUrl)
  }

  /** A protocol-relative link `//x` becomes `https://x`. */
  lemma ProtocolRelativeGetsHttps(api: UrlApi, x: string, baseUrl: string)
    ensures Absolutize(api, "//" + x, baseUrl) == Some("https://" + x)
  {
    var link := "//" + x;
    assert !StartsWith(link, "http://") && !StartsWith(link, "https://") by {
      assert link[0] == '/';
    }
    assert StartsWith(link, "//") by { assert link[..2] == "//"; }
    assert "https:" + link == "https://" + x;
  }

  /** The internal-link test: the same host name, or a subdomain of it. */
  predicate InternalTo(api: UrlApi, link: string, baseHost: string) {
    api.parse(link).Some?
    && (api.parse(link).value.hostname == baseHost || EndsWith(api.parse(link).value.hostname, "." + baseHost))
  }

  /** The absolute forms of the kept hrefs, those that resolve, in order. */
  function Absolutized(api: UrlApi, kept: seq<string>, baseUrl: string): seq<string> {
    Somes(MapSeq((h: string) => Absolutize(api, h, baseUrl), kept))
  }

  /** Each absolute link comes from a kept href, and each resolvable kept href gives one. */
  lemma AbsolutizedSources(api: UrlApi, kept: seq<string>, baseUrl: string)
    ensures forall l :: l in Absolutized(api, kept, baseUrl) ==>
      exists h :: h in kept && Absolutize(api, h, baseUrl) == Some(l)
    ensures forall h :: h in kept && Absolutize(api, h, baseUrl).Some? ==>
      Absolutize(api, h, baseUrl).value in Absolutized(api, kept, baseUrl)
  {
    var mapped := MapSeq((h: string) => Absolutize(api, h, baseUrl), kept);
    forall l | l in Absolutized(api, kept, baseUrl)
      ensures exists h :: h in kept && Absolutize(api, h, baseUrl) == Some(l)
    {
      assert Some(l) in mapped;
      var k :| 0 <= k < |mapped| && mapped[k] == Some(l);
      assert kept[k] in kept;
    }
    forall h | h in kept && Absolutize(api, h, baseUrl).Some?
      ensures Absolutize(api, h, baseUrl).value in Absolutized(api, kept, baseUrl)
    {
      var k :| 0 <= k < |kept| && kept[k] == h;
      assert mapped[k] == Absolutize(api, h, baseUrl);
    }
  }

  /** The `map`/`filter`/`Set` pipeline of `extractLinks` over the navigable hrefs `kept`. */
  function LinkPipeline(api: UrlApi, kept: seq<string>, baseUrl: string, baseHost: string): seq<string> {
    var absolute := Absolutized(api, kept, baseUrl);
    var internal := Filter((l: string) => InternalTo(api, l, baseHost), absolute);
    Dedupe(internal)
  }

  /** `extractLinks(htmlContent, baseUrl)`; an unparsable base throws inside its `try` and yields `[]`. */
  function ExtractedLinks(api: UrlApi, text: string, baseUrl: string): seq<string> {
    if api.parse(baseUrl).None? then []
    else LinkPipeline(api, Filter(IsNavigableHref, Hrefs(text, 0)), baseUrl, api.parse(baseUrl).value.hostname)
  }

  /** Every extracted link comes from a navigable href on the page and is internal to the base host. */
  lemma ExtractedLinksSound(api: UrlApi, text: string, baseUrl: string)
    requires api.parse(baseUrl).Some?
    ensures var links := ExtractedLinks(api, text, baseUrl);
      forall i :: 0 <= i < |links| ==>
        && InternalTo(api, links[i], api.parse(baseUrl).value.hostname)
        && exists h :: h in Hrefs(text, 0) && IsNavigableHref(h) && Absolutize(api, h, baseUrl) == Some(links[i])
  {
    var baseHost := api.parse(baseUrl).value.hostname;
    var hrefs := Hrefs(text, 0);
    var kept := Filter(IsNavigableHref, hrefs);
    var absolute := Absolutized(api, kept, baseUrl);
    var internal := Filter((l: string) => InternalTo(api, l, baseHost), absolute);
    var links := Dedupe(internal);
    AbsolutizedSources(api, kept, baseUrl);
    forall i | 0 <= i < |links|
      ensures InternalTo(api, links[i], baseHost)
      ensures exists h :: h in hrefs && IsNavigableHref(h) && Absolutize(api, h, baseUrl) == Some(links[i])
    {
      assert links[i] in internal;
      var h :| h in kept && Absolutize(api, h, baseUrl) == Some(links[i]);
      assert h in hrefs && IsNavigableHref(h);
    }
  }

  /** Every internal link that a navigable href on the page resolves to is extracted. */
  lemma ExtractedLinksComplete(api: UrlApi, text: string, baseUrl: string, h: string)
    requires api.parse(baseUrl).Some?
    requires h in Hrefs(text, 0) && IsNavigableHref(h)
    requires Absolutize(api, h, baseUrl).Some?
    requires InternalTo(api, Absolutize(api, h, baseUrl).value, api.parse(baseUrl).value.hostname)
    ensures Absolutize(api, h, baseUrl).value in ExtractedLinks(api, text, baseUrl)
  {
    var baseHost := api.parse(baseUrl).value.hostname;
    var kept := Filter(IsNavigableHref, Hrefs(text, 0));
    var absolute := Absolutized(api, kept, baseUrl);
    AbsolutizedSources(api, kept, baseUrl);
    assert h in kept;
    var l := Absolutize(api, h, baseUrl).value;
    var j :| 0 <= j < |absolute| && absolute[j] == l;
    assert l in Filter((l: string) => InternalTo(api, l, baseHost), absolute);
  }

  /** No link is extracted twice. */
  lemma ExtractedLinksDistinct(api: UrlApi, text: string, baseUrl: string)
    ensures NoDuplicates(ExtractedLinks(api, text, baseUrl))
  {
  }

  /** One turn of the collecting loop: the next capture, when navigable, then the navigable hrefs after it. */
  lemma NavigableHrefsStep(text: string, pos: nat)
    requires pos <= |text| && NextHref(text, pos).Some?
    ensures var m := NextHref(text, pos).value;
      Filter(IsNavigableHref, Hrefs(text, pos))
        == (if IsNavigableHref(m.capture) then [m.capture] else []) + Filter(IsNavigableHref, Hrefs(text, m.end))
  {
    var m := NextHref(text, pos).value;
    assert Hrefs(text, pos) == [m.capture] + Hrefs(text, m.end);
    FilterCons(IsNavigableHref, m.capture, Hrefs(text, m.end));
  }

  /** A turn of the collecting loop that keeps the capture preserves its invariant. */
  lemma KeepStep(acc: seq<string>, text: string, pos: nat)
    requires pos <= |text| && NextHref(text, pos).Some? && IsNavigableHref(NextHref(text, pos).value.capture)
    ensures var m := NextHref(text, pos).value;
      (acc + [m.capture]) + Filter(IsNavigableHref, Hrefs(text, m.end)) == acc + Filter(IsNavigableHref, Hrefs(text, pos))
  {
    var m := NextHref(text, pos).value;
    var rest := Filter(IsNavigableHref, Hrefs(text, m.end));
    NavigableHrefsStep(text, pos);
    assert Filter(IsNavigableHref, Hrefs(text, pos)) == [m.capture] + rest;
    assert (acc + [m.capture]) + rest == acc + ([m.capture] + rest);
  }

  /** A turn of the collecting loop that skips the capture preserves its invariant. */
  lemma SkipStep(text: string, pos: nat)
    requires pos <= |text| && NextHref(text, pos).Some? && !IsNavigableHref(NextHref(text, pos).value.capture)
    ensures Filter(IsNavigableHref, Hrefs(text, NextHref(text, pos).value.end)) == Filter(IsNavigableHref, Hrefs(text, pos))
  {
    NavigableHrefsStep(text, pos);
  }

  /** `extractLinks`: the `exec` loop collecting navigable hrefs, then the pipeline. */
  method ExtractLinks(api: UrlApi, text: string, baseUrl: string) returns (links: seq<string>)
    ensures links == ExtractedLinks(api, text, baseUrl)
  {
    var hrefs: seq<string> := [];
    var pos := 0;
    while true
      invariant pos <= |text|
      invariant hrefs + Filter(IsNavigableHref, Hrefs(text, pos)) == Filter(IsNavigableHref, Hrefs(text, 0))
      decreases |text| - pos
    {
      var m := NextHref(text, pos);
      if m.None? {
        assert Hrefs(text, pos) == [];
        break;
      }
      var href := m.value.capture;
      if IsNavigableHref(href) {
        KeepStep(hrefs, text, pos);
        hrefs := hrefs + [href];
      } else {
        SkipStep(text, pos);
      }
      pos := m.value.end;
    }
    var parsedBase := api.parse(baseUrl);
    if parsedBase.None? {
      return [];
    }
    assert hrefs == Filter(IsNavigableHref, Hrefs(text, 0));
    links := LinkPipeline(api, hrefs, baseUrl, parsedBase.value.hostname);
  }

  // ---------------------------------------------------------------- the route

  /** The GET of the page itself: thrown, or answered with a status and the body text. */
  datatype PageFetch = PageThrew(thrown: Thrown) | PageAnswered(status: nat, body: string)

  datatype CheckLinksResponse =
    | Rejected(status: nat, error: string)
    | Report(url: string, linksFound: nat, linksChecked: nat, links: seq<LinkResult>, message: Option<string>)

  /** The message of the inner `catch` around the page fetch. */
  function PageFetchError(t: Thrown): (msg: string)
    ensures IsAbort(t) ==> msg == "Website fetch timeout. Please try again."
    ensures t.isError && !IsAbort(t) ==> msg == t.message
    ensures !t.isError ==> msg == "Failed to fetch website"
  {
    if IsAbort(t) then "Website fetch timeout. Please try again."
    else if t.isError then t.message
    else "Failed to fetch website"
  }

  /** A link as it appears in the report: checked, then stamped with the page it was found on. */
  function CheckedLink(api: UrlApi, fetchLink: string -> LinkFetch, link: string, page: string): LinkResult {
    CheckLink(api, link, fetchLink(link)).(foundOn := Some(page))
  }

  /**
   * The `for` loop of the handler: check each link in order and stamp it with
   * `page`. `requested` lists the links whose GET was issued.
   */
  method CheckInOrder(api: UrlApi, toCheck: seq<string>, fetchLink: string -> LinkFetch, page: string)
    returns (results: seq<LinkResult>, requested: seq<string>)
    ensures |results| == |toCheck|
    ensures forall k :: 0 <= k < |toCheck| ==> results[k] == CheckedLink(api, fetchLink, toCheck[k], page)
    ensures requested == Filter((l: string) => IssuesRequest(api, l), toCheck)
  {
    var issues := (l: string) => IssuesRequest(api, l);
    results := [];
    requested := [];
    var i := 0;
    while i < |toCheck|
      invariant 0 <= i <= |toCheck|
      invariant |results| == i
      invariant forall k :: 0 <= k < i ==> results[k] == CheckedLink(api, fetchLink, toCheck[k], page)
      invariant requested == Filter(issues, toCheck[..i])
    {
      var link := toCheck[i];
      FilterSnoc(issues, toCheck[..i], link);
      assert toCheck[..i + 1] == toCheck[..i] + [link];
      if IssuesRequest(api, link) {
        requested := requested + [link];
      }
      var result := CheckLink(api, link, fetchLink(link));
      result := result.(foundOn := Some(page));
      results := results + [result];
      i := i + 1;
    }
    assert toCheck[..i] == toCheck;
  }

  /**
   * The `POST` handler. `fetchLink` gives the response each link's GET would
   * get; `requested` lists the URLs requested, in order.
   */
  method CheckLinksPost(api: UrlApi, url: BodyField, page: PageFetch, fetchLink: string -> LinkFetch)
    returns (resp: CheckLinksResponse, requested: seq<string>)
    ensures RequiredString(url).None? ==> resp == Rejected(400, "Invalid URL provided") && requested == []
    ensures RequiredString(url).Some? && api.parse(url.value).None? ==>
      resp == Rejected(400, "Invalid URL format") && requested == []
    ensures resp.Rejected? ==> resp.status == 400
    ensures RequiredString(url).Some? && api.parse(url.value).Some? ==>
      && |requested| >= 1 && requested[0] == url.value
      && (page.PageThrew? ==> resp == Rejected(400, PageFetchError(page.thrown)))
      && (page.PageAnswered? && !Ok(page.status) ==>
            resp == Rejected(400, "Unable to fetch website. Status: " + NatToString(page.status)))
      && (page.PageAnswered? && Ok(page.status) && page.body == "" ==>
            resp == Rejected(400, "Website returned empty content"))
    ensures (RequiredString(url).Some? && api.parse(url.value).Some? && page.PageAnswered? &&
             Ok(page.status) && page.body != "") ==>
      var all := ExtractedLinks(api, page.body, url.value);
      var toCheck := Take(all, 100);
      && resp.Report?
      && resp.url == url.value
      && resp.linksFound == |all|
      && resp.linksChecked == (if |all| < 100 then |all| else 100)
      && |resp.links| == resp.linksChecked
      && (forall i :: 0 <= i < |resp.links| ==> resp.links[i] == CheckedLink(api, fetchLink, all[i], url.value))
      && resp.message == (if all == [] then Some(NoLinksMessage) else None)
      && requested == [url.value] + Filter((l: string) => IssuesRequest(api, l), toCheck)
  {
    if RequiredString(url).None? {
      return Rejected(400, "Invalid URL provided"), [];
    }
    var u := url.value;
    if api.parse(u).None? {
      return Rejected(400, "Invalid URL format"), [];
    }
    requested := [u];
    var body: string;
    match page {
      case PageThrew(t) =>
        return Rejected(400, PageFetchError(t)), requested;
      case PageAnswered(status, text) =>
        if !Ok(status) {
          return Rejected(400, "Unable to fetch website. Status: " + NatToString(status)), requested;
        }
        body := text;
    }
    if body == "" {
      return Rejected(400, "Website returned empty content"), requested;
    }
    var checkedUrls;
    resp, checkedUrls := ReportLinks(api, u, body, fetchLink);
    requested := requested + checkedUrls;
  }

  /** The report's message when the page has no internal link. */
  const NoLinksMessage := "No internal links found on this page"

  /** Extracting, capping and checking the links of a fetched non-empty page. */
  method ReportLinks(api: UrlApi, u: string, body: string, fetchLink: string -> LinkFetch)
    returns (resp: CheckLinksResponse, checkedUrls: seq<string>)
    ensures var all := ExtractedLinks(api, body, u);
      && resp.Report?
      && resp.url == u
      && resp.linksFound == |all|
      && resp.linksChecked == (if |all| < 100 then |all| else 100)
      && |resp.links| == resp.linksChecked
      && (forall i :: 0 <= i < |resp.links| ==> resp.links[i] == CheckedLink(api, fetchLink, all[i], u))
      && resp.message == (if all == [] then Some(NoLinksMessage) else None)
      && checkedUrls == Filter((l: string) => IssuesRequest(api, l), Take(all, 100))
  {
    var all := ExtractLinks(api, body, u);
    if |all| == 0 {
      return Report(u, 0, 0, [], Some(NoLinksMessage)), [];
    }
    var toCheck := Take(all, 100);
    var results;
    results, checkedUrls := CheckInOrder(api, toCheck, fetchLink, u);
    resp := Report(u, |all|, |toCheck|, results, None);
  }
}
