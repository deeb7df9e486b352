# Site diagnostics: a Dafny model

A Next.js web application that diagnoses websites and domains. This project
models its five core pieces:

- **`POST /api/check-links`** fetches a page and extracts its internal links
  from the `href` attributes. It checks up to 100 of them one after another and
  gives each a category: success, broken, warning or skipped.
- **`POST /api/health-check`** normalises the target URL, reads
  `/sitemap.xml` and, when the sitemap is missing or has fewer than five
  entries, also reads the homepage links. It then checks up to 15 pages
  against a ladder of rules and reports per-page health, the main page and
  totals.
- **`POST /api/whois`** cleans and validates a domain name and asks an RDAP
  service. When that fails it falls back to scraping a WHOIS web page. It
  reports expiry, creation and update dates, the registrar and the status list.
- **`GET /api/ssl`** cleans and validates a domain name and reports the
  validity window of its TLS certificate and the days remaining.
- **The domain-checker component** extracts up to 20 distinct valid domains
  from a text box and looks each one up through the two routes above. It puts
  the settled record for each domain into a result map, gives dates and
  certificates their status bands, and sums up the map.

The network, the clock and the URL parser are parameters:

- **Recorded responses.** A fetch becomes a recorded response, or a function
  from URL to response (`string -> LinkFetch`, `string -> PageOutcome`,
  `string -> Lookup`).
- **Time.** The current time is an integer in milliseconds. `new Date(s)`
  becomes a `parseDate` function.
- **URL parser.** The WHATWG URL parser is the pair of functions in `Url.UrlApi`:
  `parse` stands for `new URL(s)` and `resolve` for `new URL(s, base).href`.
- **Methods and requested URLs.** Loops in the source are Dafny methods proved
  against a specification function. The methods that issue requests in the
  check-links and WHOIS routes, and the sitemap fetch, also return the list of
  URLs they requested (`CheckInOrder`, `CheckLinksPost`, `ReportLinks`,
  `FetchSitemap`, `LookUp`, `WhoisPost`), because "which hosts are contacted"
  is part of what those routes promise. The health-check page checks, the
  homepage scan and the health-check `POST` do not return one.
- **Fixed messages.** The routes' fixed error messages are enumerations
  (`Whois.WhoisError`, `Ssl.CertError`); `ErrorText` and `CertErrorText` give
  the text each one is sent with.

Modules, one per concern:

| module | file | holds |
|---|---|---|
| `Wrappers` | `wrappers.dfy` | `Option` |
| `Seqs` | `seqs.dfy` | `Filter`, `Count`, `MapSeq`, `Take` (`slice`), `Dedupe` (`new Set` / `indexOf` dedupe, first occurrence kept) and their lemmas |
| `Text` | `text.dfy` | `trim` with the ECMAScript white-space set, `startsWith` / `endsWith` / `includes`, ASCII lower-casing, `split` / `join`, number formatting |
| `Http`, `Url` | `http.dfy` | thrown values, JSON body fields, `response.ok`, the URL parser as parameters |
| `DomainNames` | `domain_names.dfy` | the label grammar and the routes' domain cleaning |
| `Days` | `days.dfy` | `Math.ceil` of a millisecond difference over a day |
| `CheckLinks` | `check_links.dfy` | `checkLink`, `extractLinks`, `POST` |
| `HealthCheck` | `health_check.dfy` | `getIssueType`, `checkUrl` and its rule ladder |
| `PageDiscovery` | `page_discovery.dfy` | `fetchSitemap`, `scanHomepageLinks` |
| `HealthRoute` | `health_route.dfy` | the health-check `POST` |
| `Whois` | `whois.dfy` | `parseRDAPResponse`, `parseWhoisHTML`, `extractVCardName`, `POST` |
| `Ssl` | `ssl.dfy` | `getSSLCertificate`, `GET` |
| `DomainChecker` | `domain_checker.dfy` | the component's pure helpers, `processDomains`, `handleSubmit`, `calculateSummary` |

The model follows the code, with four exceptions. In each, the code departs
from what it evidently intends:

- the registrar's jCard walk;
- the banding of an unparsable expiry date;
- the same-origin test of the homepage scan;
- the scheme test of the health-check target.

For each one the model keeps the as-written definition, together with a lemma
that exhibits a concrete input on which it goes wrong. The rest of the model
uses the corrected definition, and the intended property is proved about it
(see "## Findings").

## Model

| member | source | states |
|---|---|---|
| CheckLinks.ClassifyStatus | app/api/check-links/route.ts:64-93 | 2xx and 3xx are valid successes; 404 and 5xx are broken; every other status is a non-broken warning |
| CheckLinks.GoneIsAWarning | app/api/check-links/route.ts:88-93 | 401, 403, 410 and 429 fall to the warning branch, not broken |
| CheckLinks.CheckLink | app/api/check-links/route.ts:14-118 | an unparsable URL is a "Network Error" warning; a skip-listed pathname is "Skipped" and valid; a response gets a verdict equal to `ClassifyStatus` and the status text, or "HTTP n" when that text is empty; a thrown fetch is a warning, "Timeout" exactly for an AbortError; every result is consistent (broken implies not valid) |
| CheckLinks.UnrequestedLinkIgnoresNetwork | app/api/check-links/route.ts:18-42 | a link that is skipped or unparsable gets the same result whatever the network would answer, so no request is made for it |
| CheckLinks.Hrefs | app/api/check-links/route.ts:122-138 | every captured `href` value is non-empty and free of quote characters |
| CheckLinks.ProtocolRelativeGetsHttps | app/api/check-links/route.ts:143-147 | a `//host/...` link is made absolute as `https://host/...` |
| CheckLinks.AbsolutizedSources | app/api/check-links/route.ts:143-154 | the absolute links are exactly the images of the kept links whose resolution succeeds (both directions) |
| CheckLinks.ExtractedLinksSound | app/api/check-links/route.ts:120-170 | every extracted link is internal to the page's host and is the resolution of a navigable `href` in the page |
| CheckLinks.ExtractedLinksComplete | app/api/check-links/route.ts:120-170 | every navigable `href` that resolves to an internal URL is among the extracted links |
| CheckLinks.ExtractedLinksDistinct | app/api/check-links/route.ts:165 | the extracted links have no duplicates |
| CheckLinks.ExtractLinks | app/api/check-links/route.ts:120-170 | the scanning loop computes exactly `ExtractedLinks` |
| CheckLinks.PageFetchError | app/api/check-links/route.ts:209-219 | an AbortError gives the timeout message; another Error gives its message; a non-Error gives "Failed to fetch website" |
| CheckLinks.CheckInOrder | app/api/check-links/route.ts:239-250 | one result per link, in order, each the link's check stamped with the page; the requests issued are exactly those for the links that are neither skipped nor unparsable |
| CheckLinks.ReportLinks | app/api/check-links/route.ts:225-257 | the report carries the page URL, the number of links found, `min(found, 100)` links checked, the i-th result for the i-th link, the message "No internal links found on this page" when no link was found and none otherwise, and requests only for the first 100 links |
| CheckLinks.CheckLinksPost | app/api/check-links/route.ts:172-263 | a missing or non-string URL and an unparsable URL are 400s without any request; a failed, non-ok or empty page fetch is a 400 with the source's messages; otherwise the report as `ReportLinks` states, including its "No internal links found on this page" message exactly when no link was found, after exactly one request for the page |
| HealthCheck.GetIssueType | app/api/health-check/route.ts:16-21 | Security exactly when an issue mentions security, hacked or malware; otherwise CSS exactly when one mentions css or content; otherwise Speed exactly when one mentions slow or time; otherwise none |
| HealthCheck.IssueTypeIgnoresOrder | app/api/health-check/route.ts:16-21 | two issue lists with the same members get the same issue type |
| HealthCheck.NotOkRule | app/api/health-check/route.ts:46-60 | a non-ok status fires the rule; 403, 429 and 503 give a warning, every other failure an error |
| HealthCheck.RedirectRule | app/api/health-check/route.ts:61-73 | the off-site redirect rule fires exactly when the response is ok, redirected and its final URL is off-site; it is an unconditional warning naming the final host |
| HealthCheck.Rules | app/api/health-check/route.ts:46-110 | the seven rules of the ladder, none of which sets the status back to healthy |
| HealthCheck.ApplyKeepsUnhealthy | app/api/health-check/route.ts:46-110 | once a page is not healthy, no later rule makes it healthy again |
| HealthCheck.HealthyIffNothingFired | app/api/health-check/route.ts:46-116 | a page ends healthy exactly when no issue was recorded |
| HealthCheck.LastUnconditionalDecides | app/api/health-check/route.ts:46-110 | the status is that of the last rule which fired and does not depend on the page being healthy |
| HealthCheck.HealthOfResponse | app/api/health-check/route.ts:24-116 | for a response, the page's health is the fold of the seven rules: status code and load time copied, issues the messages fired, issue type `GetIssueType` of them, healthy exactly when there is no issue |
| HealthCheck.RulesIndex | app/api/health-check/route.ts:46-110 | rule by rule, both directions: the condition that fires each of the seven rules, the severity it sets and whether it applies only to a still-healthy page (only the slow-load rule does) |
| HealthCheck.InsecureOverridesNotFound | app/api/health-check/route.ts:46-84 | a failing `http://` page ends as a warning, because the insecure-scheme rule overrides the error |
| HealthCheck.SlowLoadKeepsFailure | app/api/health-check/route.ts:46-84 | for a failing `https` page, a slow load does not change the status set by the failure |
| HealthCheck.SlowLoadAloneWarns | app/api/health-check/route.ts:76-110 | a slow load on an otherwise clean page is a warning |
| HealthCheck.EvalRuleDecidesLast | app/api/health-check/route.ts:103-106 | an ok page with `eval(` inside a script tag ends as a warning, even after a defacement error |
| HealthCheck.DefacementIsAnError | app/api/health-check/route.ts:98-101 | an ok page that looks defaced and has no eval script ends as an error |
| HealthCheck.FailingResponseIgnoresBody | app/api/health-check/route.ts:88-110 | the body of a non-ok response plays no part in its health |
| HealthCheck.ResponseRules | app/api/health-check/route.ts:46-73 | the status and issues after the failure and redirect rules; it throws exactly when the redirect target cannot be parsed |
| HealthCheck.LoadAndSchemeRules | app/api/health-check/route.ts:76-84 | the status and issues after the slow-load and insecure-scheme rules |
| HealthCheck.BodyRules | app/api/health-check/route.ts:88-110 | the status and issues after the short-content, defacement and eval rules |
| HealthCheck.CheckUrl | app/api/health-check/route.ts:24-125 | the method's result is `HealthOf`; a thrown fetch gives the unreachable-page record; a response gives the facts of `HealthOfResponse` |
| PageDiscovery.LocAt | app/api/health-check/route.ts:136-139 | a `<loc>` match ends after its start, and its capture holds no line terminator, since `.` does not match one |
| PageDiscovery.SitemapEntries | app/api/health-check/route.ts:136-146 | the entries are the trimmed `<loc>` captures that do not end in `.xml` (sound and complete) |
| PageDiscovery.EntriesStep | app/api/health-check/route.ts:139-146 | one `regex.exec` step adds the trimmed capture when it is a page, and nothing otherwise |
| PageDiscovery.SitemapLocs | app/api/health-check/route.ts:136-147 | the `while` loop computes exactly `SitemapEntries` |
| PageDiscovery.FetchSitemap | app/api/health-check/route.ts:128-151 | an unresolvable sitemap URL gives no pages and no request; otherwise exactly one request for `/sitemap.xml`, then the entries of an ok body, or no pages |
| PageDiscovery.ScanFromKeepsInvariant | app/api/health-check/route.ts:174-187 | the scan keeps the found URLs distinct, same-site and not assets, never shrinks them, and stops at `maxLinks` |
| PageDiscovery.PrefixHomepageLinks | app/api/health-check/route.ts:154-192 | the scan as written: distinct URLs that start with the homepage's origin text, are not assets, at most `maxLinks` of them; none when the homepage fetch threw, was not ok or its URL does not parse |
| PageDiscovery.HomepageLinksBounded | app/api/health-check/route.ts:154-192 | the scan with the corrected same-origin test: distinct URLs that parse and have the homepage's origin, are not assets, at most `maxLinks` of them; none when the homepage fetch threw, was not ok or its URL does not parse |
| PageDiscovery.ScanHomepageLinks | app/api/health-check/route.ts:154-192 | the loop, with its `continue` and `break` and the corrected same-origin test, computes exactly `HomepageLinks` |
| PageDiscovery.OriginPrefixAdmitsOtherHost | app/api/health-check/route.ts:180 | on `https://a.com` the as-written scan keeps `https://a.company.com/`; the corrected scan does not |
| HealthRoute.NormalizeTarget | app/api/health-check/route.ts:203-206 | the target starts with "http" and ends with the trimmed input; a trimmed input starting with "http" is kept as it is, and any other gets exactly "https://" in front |
| HealthRoute.NormalizeTargetIdempotent | app/api/health-check/route.ts:203-206 | normalising twice is normalising once |
| HealthRoute.BareHttpHostKeepsNoScheme | app/api/health-check/route.ts:204 | the bare host "httpbin.org" is left without a scheme |
| HealthRoute.NormalizeTargetWithScheme | app/api/health-check/route.ts:203-206 | corrected normalisation: the result always has an `http://` or `https://` scheme and ends with the trimmed input; a trimmed input with such a scheme is kept as it is, and any other gets exactly "https://" in front |
| HealthRoute.NormalizeTargetWithSchemeIdempotent | app/api/health-check/route.ts:203-206 | the corrected normalisation is idempotent |
| HealthRoute.BareHttpHostGetsScheme | app/api/health-check/route.ts:204 | under the corrected normalisation "httpbin.org" becomes "https://httpbin.org" |
| HealthRoute.StripScheme | app/api/health-check/route.ts:222 | `replace(/^https?:\/\//, '')` removes exactly the leading scheme, or nothing |
| HealthRoute.PageListShape | app/api/health-check/route.ts:210-228 | 1 to 15 distinct pages, each from the sitemap, the homepage or the target; the target comes first when no discovered page covers it |
| HealthRoute.LargeSitemapListingTargetIsUsed | app/api/health-check/route.ts:213-228 | a sitemap of five or more distinct entries whose first 20 list the target gives its first 15 entries |
| HealthRoute.CheckedPages | app/api/health-check/route.ts:231-242 | one record per page, in order, each `HealthOf` the page |
| HealthRoute.CheckPages | app/api/health-check/route.ts:231-242 | the batch loop computes exactly `CheckedPages` |
| HealthRoute.CheckBatch | app/api/health-check/route.ts:235-241 | one batch extends the checked prefix to the batch's end |
| HealthRoute.Stats | app/api/health-check/route.ts:245-248 | the total is the number of pages; each count is at most the total; errors is 0 exactly when no page is an error; slow is 0 exactly when no page took over 2500 ms |
| HealthRoute.FirstFor | app/api/health-check/route.ts:251 | `find`: the first index whose URL is the target, or none exactly when no page has it |
| HealthRoute.MainIsTargetPage | app/api/health-check/route.ts:251 | when the target was checked, the main result is the target's record |
| HealthRoute.AssemblePages | app/api/health-check/route.ts:210-228 | the page list computed by the route equals `TargetPages` |
| HealthRoute.AssembleDiscovered | app/api/health-check/route.ts:210-219 | the discovered list: sitemap plus homepage deduplicated when the sitemap is small, otherwise at most 20 sitemap entries |
| HealthRoute.HealthPost | app/api/health-check/route.ts:195-267 | a missing or falsy URL is a 400 "URL is required"; a truthy non-string is a 500 from the failed `trim`; otherwise, for the target under the corrected normalisation, the report of 1 to 15 checked pages with `Stats` and `MainResult` |
| Whois.LastEventDate | app/api/whois/route.ts:96-106 | the date of the last event with the given action, or none when no event has it |
| Whois.FirstRegistrar | app/api/whois/route.ts:109-116 | the first entity with the registrar role, or none exactly when no entity has it |
| Whois.FirstFnValueAt | app/api/whois/route.ts:174-181 | the value taken is the fourth element of the first `fn` property |
| Whois.FirstFnValueAbsent | app/api/whois/route.ts:174-181 | with no `fn` property the name is null |
| Whois.ExtractVCardName | app/api/whois/route.ts:174-181 | the loop computes exactly `FirstFnValue` of the array it is given |
| Whois.ExtractVCardNameMissesJCard | app/api/whois/route.ts:174-181 | on a jCard `["vcard", [...properties]]` the as-written lookup finds no name |
| Whois.JCardName | app/api/whois/route.ts:174-181 | corrected lookup: on a jCard it searches the property list |
| Whois.JCardNameFindsFn | app/api/whois/route.ts:174-181 | the corrected lookup returns the text of the first `fn` property of a jCard |
| Whois.RegistrarJCardExample | app/api/whois/route.ts:174-181 | a concrete registrar jCard: null as written, "Example Registrar" corrected |
| Whois.ScanEvents | app/api/whois/route.ts:96-106 | the event loop leaves in each date the date of the last event of its kind |
| Whois.ScanEntities | app/api/whois/route.ts:109-116 | the entity loop, with its `break`, gives the corrected name of the first registrar entity, or none |
| Whois.ParseRdapResponse | app/api/whois/route.ts:88-131 | the record carries the domain, the last expiration, registration and last-changed dates, the first registrar's name (found by the corrected jCard walk) and the status list (or `[]`) |
| Whois.StatusPieces | app/api/whois/route.ts:164-168 | the status string splits into at least one trimmed piece, none holding a separator |
| Whois.StatusPiecesAtSeparator | app/api/whois/route.ts:164-168 | a `,` or `;` ends one piece and starts the next: the pieces of `a + sep + b` are those of `a` followed by those of `b` |
| Whois.StatusPiecesSingle | app/api/whois/route.ts:164-168 | without a separator the status is the single trimmed string |
| Whois.ParseWhoisHtml | app/api/whois/route.ts:133-171 | each field is present exactly when its label matched, and is then its trimmed capture (the registrar as a JSON string); the status list is empty exactly when no status matched, and is otherwise the pieces of the trimmed capture |
| Whois.FailureResponse | app/api/whois/route.ts:72-85 | a caught error gives 504 exactly for an AbortError and 500 otherwise |
| Whois.FromRdap | app/api/whois/route.ts:66-71 | the method computes exactly `RdapAnswer`: the JSON error's failure for an unparsable body, otherwise the found record `RdapRecord` of the body |
| Whois.FromWhoisPage | app/api/whois/route.ts:42-64 | the method computes exactly `WhoisPageAnswer`: a thrown fetch gives its failure, a non-ok page the failure of the "any service" error, an ok page the parsed record |
| Whois.WhoisPageAnswerFacts | app/api/whois/route.ts:42-85 | a found record comes from an ok page and is for the cleaned domain; a failure is a 504 exactly when the page fetch was aborted, and a 500 otherwise; a non-ok page is the generic 500 |
| Whois.LookUp | app/api/whois/route.ts:25-85 | RDAP is asked first; the WHOIS page is asked exactly when RDAP failed or was not ok; the answer is `LookUpAnswer` |
| Whois.LookUpAnswerFacts | app/api/whois/route.ts:25-85 | a found record is for the cleaned domain; an ok RDAP answer gives the whole record of its body, or a 500 when the body is not JSON; otherwise the answer is the WHOIS page's; failures are 500 or 504, a 504 only from an aborted page fetch and always for one when RDAP was not ok |
| Whois.WhoisPost | app/api/whois/route.ts:3-86 | a missing or non-string domain and a malformed one are 400s with their messages and without any request; otherwise the requests and the answer of `LookUp` for the cleaned domain |
| DomainNames.CleanRouteDomain | app/api/whois/route.ts:11-16 | the cleaned domain holds no `/` and no upper-case ASCII letter, and has no white space at either end |
| DomainNames.CleanRouteDomainFixesNames | app/api/ssl/route.ts:23-28 | a valid domain name without a leading `www.` is left unchanged |
| DomainNames.ValidRouteDomain | app/api/ssl/route.ts:23-35 | a domain is accepted exactly when its cleaning matches the label grammar, and the accepted value is the cleaned, non-empty name |
| DomainNames.DomainNameAlphabet | app/api/whois/route.ts:18-23 | a name matching the grammar is non-empty and built from lower-case letters, digits, `-` and `.` |
| Days.CeilDiv | app/api/ssl/route.ts:88 | `Math.ceil(a / b)` for positive `b`: the least integer `r` with `a <= r * b` |
| Days.DaysUntil | app/api/ssl/route.ts:86-88 | the day count brackets the remaining time; it is at most 0 once the date has passed and at least 0 before |
| Days.DaysUntilMonotone | app/api/ssl/route.ts:86-88 | a later date never gives fewer days |
| Ssl.CertificateFor | app/api/ssl/route.ts:55-139 | the record is well formed; it has no error exactly when the handshake gave both dates; then it carries the dates, the ceiling day count and `expired` exactly when now is past the end |
| Ssl.Unavailable | app/api/ssl/route.ts:39-51 | the outer catch's record is well formed and carries an error |
| Ssl.QueryResponse | app/api/ssl/route.ts:17-38 | 400 exactly when the domain is missing or invalid; otherwise 200 with `CertificateFor` the cleaned domain |
| Ssl.SslGet | app/api/ssl/route.ts:14-53 | 500 exactly when the request URL cannot be parsed, with a record carrying an error; otherwise as `QueryResponse` |
| Ssl.RejectionOpensNoConnection | app/api/ssl/route.ts:19-35 | a rejected request gives the same answer whatever the TLS probe and the clock would give |
| DomainChecker.CleanClientDomain | components/domain-checker.tsx:88-92 | the cleaned line holds no `/` and no upper-case ASCII letter |
| DomainChecker.ValidateDomain | components/domain-checker.tsx:85-94 | a blank line is invalid; otherwise a line is valid exactly when its trimmed, cleaned form is a domain name |
| DomainChecker.CleaningOrderDiffers | components/domain-checker.tsx:85-94 | the route trims last and keeps `www.` on " www.x" (giving "www.x"); the client trims first and drops it (giving "x") |
| DomainChecker.RouteKeepsLeadingWww | app/api/whois/route.ts:11-16 | the route's cleaning of " www.x" is "www.x" |
| DomainChecker.ClientDropsLeadingWww | components/domain-checker.tsx:85-92 | the client's cleaning of " www.x" is "x" |
| DomainChecker.CleanedLinesAreDomainNames | components/domain-checker.tsx:102-113 | every line kept and cleaned is a domain name |
| DomainChecker.ExtractDomainsSound | components/domain-checker.tsx:102-116 | distinct valid domains from the input in first-occurrence order: exactly the first 20 distinct cleaned lines, or all of them when there are fewer |
| DomainChecker.DaysUntilExpiry | components/domain-checker.tsx:47-58 | no (or an empty) date gives no count; an unparsable date gives NaN; otherwise the ceiling of the days remaining |
| DomainChecker.ExpiryStatus | components/domain-checker.tsx:60-69 | Unknown exactly for no count; Expired below 0; Critical below 30; Warning below 90; Healthy at 90 or more and for NaN |
| DomainChecker.ExpiryStatusMonotone | components/domain-checker.tsx:60-69 | more days never mean a more urgent band |
| DomainChecker.UnparsableExpiryIsHealthy | components/domain-checker.tsx:47-69 | an unparsable expiry date is shown as Healthy |
| DomainChecker.ExpiryStatusCorrected | components/domain-checker.tsx:47-69 | corrected bands: Unknown exactly when there is no numeric count; Healthy only for 90 days or more; otherwise equal to `ExpiryStatus` |
| DomainChecker.RowExpiryLabel | components/domain-checker.tsx:374-375 | a result row's label under the corrected bands: Unknown exactly when the date is missing or unparsable; Expired exactly when the summary counts the entry as expired; Critical exactly when it counts it as expiring |
| DomainChecker.SslStatus | components/domain-checker.tsx:71-83 | Not Available exactly when there is an error; Unknown without a day count; Expired below 0; Expiring Soon below 15; Valid otherwise |
| DomainChecker.LookupError | components/domain-checker.tsx:158-196 | the message of a failed lookup: an unparsable WHOIS body, the WHOIS error or "WHOIS Error: n" for a non-ok status, the thrown message or "Lookup failed"; none exactly for an ok WHOIS answer |
| DomainChecker.Settled | components/domain-checker.tsx:158-215 | a failed lookup gives the empty record with the failed-SSL entry and the error; a good one copies every WHOIS field (domain, the three dates, registrar, status, error) and the SSL data, or the invalid-SSL entry; never loading |
| DomainChecker.FailedLookupHasError | components/domain-checker.tsx:195-214 | a failed lookup leaves a non-empty error and "SSL check failed" on its entry |
| DomainChecker.InitLoading | components/domain-checker.tsx:121-135 | the map has exactly the domains as keys, each with its loading entry |
| DomainChecker.ProcessDomains | components/domain-checker.tsx:118-220 | the map has exactly the domains as keys, each with its settled, non-loading entry, after looking the domains up in order |
| DomainChecker.HandleSubmit | components/domain-checker.tsx:222-232 | no valid domain sets the error and changes nothing, without a lookup; otherwise the extracted domains are looked up and settled |
| DomainChecker.CalculateSummary | components/domain-checker.tsx:234-248 | the total is the number of entries; checked and errors are at most the total; expiring plus expired is at most the total |
| DomainChecker.SettledEntriesAllChecked | components/domain-checker.tsx:236 | when no entry is loading, every entry counts as checked |

## Left out

- The network, timeouts and `AbortController`: every fetch is a recorded response or a thrown value handed to the model. The 3, 5, 8 and 15 second timeouts appear only as the AbortError they raise.
- The clock and `performance.now()`: load times and the current time are inputs. The 100 ms and 200 ms delays between requests have no observable effect on results and are left out.
- `Promise.all` in the health-check batch and in the component: its requests are taken in order, which gives the same results because the recorded answers do not depend on timing.
- `HealthRoute.CheckPages`: `i += batchSize` is modelled as moving to the end of the batch, which is the same index for every list of at most 15 pages.
- Date parsing and formatting: `new Date(s)` is a `parseDate` parameter; `toISOString`, `toLocaleDateString` and the component's `formatDate` are not part of this model.
- `HealthCheck.Seconds`: `toFixed(1)` is modelled as tenths rounded half up on a millisecond count; floating-point rounding is not modelled.
- `toLowerCase` and the `i` regex flag are modelled as ASCII case folding; the Unicode case mappings outside ASCII are left out.
- `HealthCheck.ShortRule`: `text.length` is counted in characters of the model's strings, not in UTF-16 code units.
- A failure while reading `res.text()` is not modelled; a body is either delivered whole or the fetch throws.
- Request bodies are taken as already-parsed JSON fields; a request whose body is not JSON, and JSON reply bodies that are not objects, are left out.
- The V8 message texts ("url.trim is not a function", the JSON `SyntaxError` text) are modelled as fixed strings.
- The outer `catch` of the check-links `POST` (lines 258-262) cannot be reached once the request body is parsed, and is left out.
- `encodeURIComponent` in the component's SSL request is the identity on valid domain names and is not modelled.
- The anchor regex of `scanHomepageLinks` and the label regexes of `parseWhoisHTML` are taken as pre-tokenised captures; the `href` and `<loc>` scanners of `extractLinks` and `fetchSitemap` are modelled character by character.
- React state, `setResults`, `setLoading` and the rendering of the component are left out; the result map is the value `ProcessDomains` returns.
- The unused `isMain` argument of `checkUrl` and the unused `htmlContent` variable are left out.
- The component types the registrar as a string, while the route can return any JSON value; the model gives the component's registrar the route's JSON type (`Whois.Json`), so whatever value the reply carries is copied into the result.
- `Whois.RdapEvent`, `Whois.WhoisRecord`: the RDAP `eventDate` values and the elements of `status` are taken as strings; the source copies whatever JSON value they hold (app/api/whois/route.ts lines 99-103 and 120), and a number there would later be read by `new Date(...)` as epoch milliseconds.
- `Whois.ScanEvents`, `Whois.ScanEntities`, `Whois.ExtractVCardName`: a `null` element of `events`, of `entities` or of a vCard makes the source throw a TypeError (app/api/whois/route.ts lines 98, 111 and 176), which the outer `catch` turns into a 500. The model has no `null` event or entity, and its `JOther` vCard element is simply skipped, so it never reaches that 500.
- The WHATWG URL parser is not part of this model: `Url.UrlApi` takes it as parameters, and the lemmas that need concrete parses state them as requirements.

## Findings

| source | as written | input that shows it | evidently intended | confidence | as-written member | corrected member |
|---|---|---|---|---|---|---|
| app/api/whois/route.ts:174-181 | `extractVCardName` scans the elements of `vcardArray` itself for an `fn` property | an RDAP registrar entity whose `vcardArray` is `["vcard", [["version", {}, "text", "4.0"], ["fn", {}, "text", "Example Registrar"]]]` | scan the property list `vcardArray[1]` of the jCard (RFC 7095) and return "Example Registrar" | not executed | Whois.ExtractVCardNameMissesJCard | Whois.JCardNameFindsFn |
| components/domain-checker.tsx:47-69 | `getDaysUntilExpiry` returns NaN for an unparsable date, and every comparison in `getExpiryStatus` is false on NaN, so it falls to "Healthy" | an expiry date of "not a date" | an unparsable date is shown as Unknown | not executed | DomainChecker.UnparsableExpiryIsHealthy | DomainChecker.RowExpiryLabel |
| app/api/health-check/route.ts:180 | `fullUrl.startsWith(baseOrigin)` accepts any URL whose text begins with the origin | homepage `https://a.com` with a link to `https://a.company.com/` | keep only URLs whose parsed origin equals the homepage's origin | not executed | PageDiscovery.OriginPrefixAdmitsOtherHost | PageDiscovery.HomepageLinksBounded |
| app/api/health-check/route.ts:204 | `startsWith("http")` treats any host beginning with "http" as already having a scheme | the bare host `httpbin.org` | prefix `https://` unless the target starts with `http://` or `https://` | not executed | HealthRoute.BareHttpHostKeepsNoScheme | HealthRoute.BareHttpHostGetsScheme |
