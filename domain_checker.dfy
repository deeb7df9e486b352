/**
 * The logic of the domain checker form (components/domain-checker.tsx):
 * validating and extracting the domains typed in, the expiry and SSL bands,
 * the per-domain result map built while the lookups run, and the summary.
 */
module DomainChecker {
  import opened Wrappers
  import opened Text
  import opened Seqs
  import opened Http
  import opened DomainNames
  import opened Days
  import Whois

  // ---------------------------------------------------------------- validation and extraction

  /**
   * The form's cleaning chain on an already trimmed line: remove every
   * `http://` and `https://`, strip one leading `www.`, keep the text before
   * the first `/`, lower-case. Unlike the routes' chain it does not trim.
   */
  function CleanClientDomain(line: string): (r: string)
    ensures '/' !in r
    ensures forall i :: 0 <= i < |r| ==> !('A' <= r[i] <= 'Z')
  {
    var host := Split(DropPrefix(RemoveSchemes(line), "www."), {'/'})[0];
    assert '/' !in host;
    Lower(host)
  }

  /** `validateDomain(domain)`: blank input fails; otherwise the cleaned trimmed input must be a domain name. */
  function ValidateDomain(domain: string): (ok: bool)
    ensures Trim(domain) == [] ==> !ok
    ensures Trim(domain) != [] ==> (ok <==> IsDomainName(CleanClientDomain(Trim(domain))))
  {
    var trimmed := Trim(domain);
    trimmed != [] && IsDomainName(CleanClientDomain(trimmed))
  }

  /**
   * The routes trim after removing `www.` and the form trims before, so a
   * line with a leading space keeps its `www.` on the server side only.
   */
  lemma CleaningOrderDiffers()
    ensures CleanRouteDomain(" www.x") == "www.x"
    ensures CleanClientDomain(Trim(" www.x")) == "x"
  {
    RouteKeepsLeadingWww();
    ClientDropsLeadingWww();
  }

  lemma RouteKeepsLeadingWww()
    ensures CleanRouteDomain(" www.x") == "www.x"
  {
    var raw := " www.x";
    RemoveSchemesWithoutColon(raw);
    assert !StartsWith(raw, "www.") by { assert raw[0] == ' '; }
    SplitWithoutSeparator(raw, {'/'});
    assert Lower(raw) == raw;
    TrimLeadingSpace();
  }

  lemma TrimLeadingSpace()
    ensures Trim(" www.x") == "www.x"
  {
    var raw := " www.x";
    assert TrimStart(raw[1..]) == raw[1..];
    assert TrimStart(raw) == "www.x";
    assert TrimEnd("www.x") == "www.x";
  }

  lemma ClientCleansWww()
    ensures CleanClientDomain("www.x") == "x"
  {
    var t := "www.x";
    RemoveSchemesWithoutColon(t);
    assert StartsWith(t, "www.");
    assert DropPrefix(t, "www.") == "x";
    SplitWithoutSeparator("x", {'/'});
    assert Lower("x") == "x";
  }

  lemma ClientDropsLeadingWww()
    ensures CleanClientDomain(Trim(" www.x")) == "x"
  {
    TrimLeadingSpace();
    ClientCleansWww();
  }

  /** A line kept by the first filter: non-empty and valid. */
  predicate KeptLine(line: string) {
    line != [] && ValidateDomain(line)
  }

  /** The cleaned, valid lines of the input, in order, before de-duplication. */
  function CleanedLines(input: string): seq<string> {
    MapSeq(CleanClientDomain, Filter(KeptLine, MapSeq(Trim, Split(input, {'\n'}))))
  }

  /** `extractDomains(input)`: at most 20 distinct cleaned domains, in order of first appearance. */
  function ExtractDomains(input: string): seq<string> {
    Take(Dedupe(CleanedLines(input)), 20)
  }

  /** Every cleaned valid line is a domain name. */
  lemma CleanedLinesAreDomainNames(input: string)
    ensures forall d :: d in CleanedLines(input) ==> IsDomainName(d)
  {
    var lines := MapSeq(Trim, Split(input, {'\n'}));
    var kept := Filter(KeptLine, lines);
    forall i | 0 <= i < |kept| ensures IsDomainName(CleanClientDomain(kept[i])) {
      var k :| 0 <= k < |lines| && lines[k] == kept[i];
      TrimIdempotent(Split(input, {'\n'})[k]);
    }
  }

  /** Every extracted domain is one of the cleaned lines, and so a domain name. */
  lemma ExtractedAreDomainNames(input: string)
    ensures var ds := ExtractDomains(input);
      forall i :: 0 <= i < |ds| ==> IsDomainName(ds[i]) && ds[i] in CleanedLines(input)
  {
    FirstDistinct(CleanedLines(input), 20);
    CleanedLinesAreDomainNames(input);
  }

  /**
   * The extracted domains are valid cleaned domain names, distinct, at most
   * twenty, in order of first appearance, and each the cleaning of an input
   * line: the first twenty distinct ones, or all of them when there are fewer.
   */
  lemma ExtractDomainsSound(input: string)
    ensures var ds := ExtractDomains(input);
      && |ds| <= 20
      && NoDuplicates(ds)
      && (forall i :: 0 <= i < |ds| ==> IsDomainName(ds[i]) && ds[i] in CleanedLines(input))
      && (forall i, j :: 0 <= i < j < |ds| ==>
            FirstIndex(CleanedLines(input), ds[i]) < FirstIndex(CleanedLines(input), ds[j]))
      && (|Dedupe(CleanedLines(input))| <= 20 ==> forall d :: d in CleanedLines(input) ==> d in ds)
      && |ds| == (if |Dedupe(CleanedLines(input))| < 20 then |Dedupe(CleanedLines(input))| else 20)
      && ds == Dedupe(CleanedLines(input))[..|ds|]
  {
    ExtractedAreDomainNames(input);
    FirstDistinct(CleanedLines(input), 20);
  }

  // ---------------------------------------------------------------- expiry and SSL bands

  /** What `getDaysUntilExpiry` computes: null, NaN for an unparsable date, or a whole number of days. */
  datatype DayCount = NoDate | NotANumber | Days(n: int)

  /**
   * `getDaysUntilExpiry(expiryDate)`; `parseDate` is `new Date(s).getTime()`,
   * `None` standing for NaN, and `today` is the clock reading in milliseconds.
   */
  function DaysUntilExpiry(expiryDate: Option<string>, parseDate: string -> Option<int>, today: int): (d: DayCount)
    ensures !Truthy(expiryDate) ==> d == NoDate
    ensures Truthy(expiryDate) && parseDate(expiryDate.value).None? ==> d == NotANumber
    ensures Truthy(expiryDate) && parseDate(expiryDate.value).Some? ==>
      d.Days? && (d.n - 1) * MsPerDay < parseDate(expiryDate.value).value - today <= d.n * MsPerDay
  {
    if !Truthy(expiryDate) then NoDate
    else match parseDate(expiryDate.value)
      case None => NotANumber
      case Some(t) => Days(DaysUntil(t, today))
  }

  datatype ExpiryLabel = Unknown | Expired | Critical | ExpiryWarning | Healthy

  /**
   * `getExpiryStatus(days)` as written: only `null` is Unknown, and NaN fails
   * every comparison, so it falls through to Healthy.
   */
  function ExpiryStatus(d: DayCount): (l: ExpiryLabel)
    ensures l == Unknown <==> d.NoDate?
    ensures l == Expired <==> d.Days? && d.n < 0
    ensures l == Critical <==> d.Days? && 0 <= d.n < 30
    ensures l == ExpiryWarning <==> d.Days? && 30 <= d.n < 90
    ensures l == Healthy <==> d.NotANumber? || (d.Days? && d.n >= 90)
  {
    match d
    case NoDate => Unknown
    case NotANumber => Healthy
    case Days(n) => if n < 0 then Expired else if n < 30 then Critical else if n < 90 then ExpiryWarning else Healthy
  }

  /** The urgency order of the labels: Expired, Critical, Warning, Healthy. */
  function Urgency(l: ExpiryLabel): nat {
    match l
    case Expired => 0
    case Critical => 1
    case ExpiryWarning => 2
    case Healthy => 3
    case Unknown => 4
  }

  /** More days never give a more urgent label. */
  lemma ExpiryStatusMonotone(a: int, b: int)
    requires a <= b
    ensures Urgency(ExpiryStatus(Days(a))) <= Urgency(ExpiryStatus(Days(b)))
  {
  }

  /** An expiry date that does not parse is shown as Healthy. */
  lemma UnparsableExpiryIsHealthy(expiryDate: string, parseDate: string -> Option<int>, today: int)
    requires expiryDate != "" && parseDate(expiryDate).None?
    ensures ExpiryStatus(DaysUntilExpiry(Some(expiryDate), parseDate, today)) == Healthy
  {
  }

  /** The intended banding: a day count that is not a number is Unknown, like a missing one. */
  function ExpiryStatusCorrected(d: DayCount): (l: ExpiryLabel)
    ensures l == Unknown <==> !d.Days?
    ensures l == Healthy <==> d.Days? && d.n >= 90
    ensures d.Days? ==> l == ExpiryStatus(d)
  {
    if d.NotANumber? then Unknown else ExpiryStatus(d)
  }

  datatype SslLabel = NotAvailable | SslUnknown | SslExpired | ExpiringSoon | Valid

  /** `getSSLStatus(days, error)`: a non-empty error wins, then the bands on the day count. */
  function SslStatus(days: Option<int>, error: Option<string>): (l: SslLabel)
    ensures l == NotAvailable <==> Truthy(error)
    ensures l == SslUnknown <==> !Truthy(error) && days.None?
    ensures l == SslExpired <==> !Truthy(error) && days.Some? && days.value < 0
    ensures l == ExpiringSoon <==> !Truthy(error) && days.Some? && 0 <= days.value < 15
    ensures l == Valid <==> !Truthy(error) && days.Some? && days.value >= 15
  {
    if Truthy(error) then NotAvailable
    else if days.None? then SslUnknown
    else if days.value < 0 then SslExpired
    else if days.value < 15 then ExpiringSoon
    else Valid
  }

  // ---------------------------------------------------------------- the result map

  datatype SslData = SslData(
    domain: string,
    validFrom: Option<string>,
    validTo: Option<string>,
    daysRemaining: Option<int>,
    expired: bool,
    error: Option<string>)

  /** The fields of a parsed `/api/whois` reply body. */
  datatype WhoisBody = WhoisBody(
    domain: string,
    expiryDate: Option<string>,
    creationDate: Option<string>,
    updatedDate: Option<string>,
    registrar: Option<Whois.Json>,
    status: seq<string>,
    error: Option<string>)

  datatype DomainResult = DomainResult(
    domain: string,
    expiryDate: Option<string>,
    creationDate: Option<string>,
    updatedDate: Option<string>,
    registrar: Option<Whois.Json>,
    status: seq<string>,
    ssl: Option<SslData>,
    error: Option<string>,
    loading: bool)

  /**
   * The pair of requests for one domain: one of them rejected, or both
   * answered, with the WHOIS status and each body parsed as JSON (`None` when
   * the text is not JSON).
   */
  datatype Lookup =
    | LookupRejected(thrown: Thrown)
    | LookupAnswered(whoisStatus: nat, whois: Option<WhoisBody>, ssl: Option<SslData>)

  /** The entry set before the lookups start. */
  function LoadingEntry(domain: string): DomainResult {
    DomainResult(domain, None, None, None, None, [], None, None, true)
  }

  /** The error of a failed lookup, or `None` when the lookup succeeded. */
  function LookupError(l: Lookup): (e: Option<string>)
    ensures l.LookupAnswered? && l.whois.None? ==> e == Some("Invalid WHOIS response format")
    ensures l.LookupAnswered? && l.whois.Some? ==> (e.None? <==> Ok(l.whoisStatus))
    ensures l.LookupAnswered? && l.whois.Some? && !Ok(l.whoisStatus) ==>
      e == Some(if Truthy(l.whois.value.error) then l.whois.value.error.value else "WHOIS Error: " + NatToString(l.whoisStatus))
    ensures l.LookupRejected? ==> e == Some(if l.thrown.isError then l.thrown.message else "Lookup failed")
  {
    match l
    case LookupRejected(t) => Some(if t.isError then t.message else "Lookup failed")
    case LookupAnswered(status, whois, _) =>
      if whois.None? then Some("Invalid WHOIS response format")
      else if !Ok(status) then
        Some(if Truthy(whois.value.error) then whois.value.error.value else "WHOIS Error: " + NatToString(status))
      else None
  }

  /** The SSL record stored for a domain whose lookup failed. */
  function FailedSsl(domain: string): SslData {
    SslData(domain, None, None, None, false, Some("SSL check failed"))
  }

  /** The SSL record stored when the SSL reply is not JSON. */
  function InvalidSsl(domain: string): SslData {
    SslData(domain, None, None, None, false, Some("Invalid SSL response"))
  }

  /** The entry a domain ends with once its lookup has settled. */
  function Settled(domain: string, l: Lookup): (r: DomainResult)
    ensures !r.loading
    ensures LookupError(l).Some? ==>
      && r == DomainResult(domain, None, None, None, None, [], Some(FailedSsl(domain)), LookupError(l), false)
    ensures LookupError(l).None? ==>
      var w := l.whois.value;
      && r.domain == w.domain && r.expiryDate == w.expiryDate
      && r.creationDate == w.creationDate && r.updatedDate == w.updatedDate && r.registrar == w.registrar
      && r.status == w.status && r.error == w.error
      && r.ssl == Some(if l.ssl.Some? then l.ssl.value else InvalidSsl(domain))
  {
    var e := LookupError(l);
    if e.Some? then DomainResult(domain, None, None, None, None, [], Some(FailedSsl(domain)), e, false)
    else
      var w := l.whois.value;
      var ssl := if l.ssl.Some? then l.ssl.value else InvalidSsl(domain);
      DomainResult(w.domain, w.expiryDate, w.creationDate, w.updatedDate, w.registrar, w.status, Some(ssl), w.error, false)
  }

  /** A failed lookup leaves a non-empty error, unless it was an Error thrown with an empty message. */
  lemma FailedLookupHasError(domain: string, l: Lookup)
    requires LookupError(l).Some?
    requires !(l.LookupRejected? && l.thrown.isError && l.thrown.message == "")
    ensures Settled(domain, l).error.Some? && Settled(domain, l).error.value != ""
    ensures Settled(domain, l).ssl.value.error == Some("SSL check failed")
  {
    if l.LookupAnswered? && l.whois.Some? && !Ok(l.whoisStatus) && !Truthy(l.whois.value.error) {
      var s := "WHOIS Error: " + NatToString(l.whoisStatus);
      assert s[0] == 'W';
    }
  }

  /** The first loop: every domain mapped to a loading entry with null fields. */
  method InitLoading(domains: seq<string>) returns (results: map<string, DomainResult>)
    ensures forall d :: d in results <==> d in domains
    ensures forall d :: d in results ==> results[d] == LoadingEntry(d)
  {
    results := map[];
    for i := 0 to |domains|
      invariant forall d :: d in results <==> d in domains[..i]
      invariant forall d :: d in results ==> results[d] == LoadingEntry(d)
    {
      results := results[domains[i] := LoadingEntry(domains[i])];
    }
    assert domains[..|domains|] == domains;
  }

  /**
   * `processDomains(domains)`: the loading entries, then one lookup per domain
   * in order, each settling its own entry. `looked` lists the lookups issued.
   */
  method ProcessDomains(domains: seq<string>, lookup: string -> Lookup)
    returns (results: map<string, DomainResult>, looked: seq<string>)
    ensures forall d :: d in results <==> d in domains
    ensures forall d :: d in results ==> results[d] == Settled(d, lookup(d)) && !results[d].loading
    ensures looked == domains
  {
    results := InitLoading(domains);
    looked := [];
    for i := 0 to |domains|
      invariant forall d :: d in results <==> d in domains
      invariant forall d :: d in results && d in domains[..i] ==> results[d] == Settled(d, lookup(d))
      invariant forall d :: d in results && d !in domains[..i] ==> results[d] == LoadingEntry(d)
      invariant looked == domains[..i]
    {
      var domain := domains[i];
      results := results[domain := Settled(domain, lookup(domain))];
      looked := looked + [domain];
      assert domains[..i + 1] == domains[..i] + [domain];
    }
    assert domains[..|domains|] == domains;
  }

  /**
   * `handleSubmit`: with no valid domain the form shows its error and looks
   * nothing up; otherwise the error is cleared and the extracted domains are processed.
   */
  method HandleSubmit(input: string, lookup: string -> Lookup, before: map<string, DomainResult>)
    returns (error: string, results: map<string, DomainResult>, looked: seq<string>)
    ensures ExtractDomains(input) == [] ==>
      error == "Please enter at least one valid domain" && results == before && looked == []
    ensures ExtractDomains(input) != [] ==>
      && error == "" && looked == ExtractDomains(input)
      && (forall d :: d in results <==> d in ExtractDomains(input))
      && (forall d :: d in results ==> results[d] == Settled(d, lookup(d)))
  {
    var domains := ExtractDomains(input);
    if |domains| == 0 {
      return "Please enter at least one valid domain", before, [];
    }
    error := "";
    results, looked := ProcessDomains(domains, lookup);
  }

  // ---------------------------------------------------------------- the summary

  /** The `expiring` filter of `calculateSummary`: a numeric count of 0 to 29 days. */
  predicate IsExpiring(r: DomainResult, parseDate: string -> Option<int>, today: int) {
    var d := DaysUntilExpiry(r.expiryDate, parseDate, today); d.Days? && 0 <= d.n < 30
  }

  /** The `expired` filter of `calculateSummary`: a negative numeric count. */
  predicate IsExpired(r: DomainResult, parseDate: string -> Option<int>, today: int) {
    var d := DaysUntilExpiry(r.expiryDate, parseDate, today); d.Days? && d.n < 0
  }

  /**
   * The expiry label of a result row, `getExpiryStatus(getDaysUntilExpiry(expiryDate))`
   * with the corrected banding: it agrees with the summary's counts.
   */
  function RowExpiryLabel(r: DomainResult, parseDate: string -> Option<int>, today: int): (l: ExpiryLabel)
    ensures l == Unknown <==> !Truthy(r.expiryDate) || parseDate(r.expiryDate.value).None?
    ensures l == Expired <==> IsExpired(r, parseDate, today)
    ensures l == Critical <==> IsExpiring(r, parseDate, today)
  {
    ExpiryStatusCorrected(DaysUntilExpiry(r.expiryDate, parseDate, today))
  }

  datatype Summary = Summary(total: nat, checked: nat, errors: nat, expiring: nat, expired: nat)

  /** `calculateSummary` over the entries in map order; dates parsed and the clock read as in `DaysUntilExpiry`. */
  function CalculateSummary(entries: seq<DomainResult>, parseDate: string -> Option<int>, today: int): (s: Summary)
    ensures s.total == |entries|
    ensures s.checked <= s.total && s.errors <= s.total
    ensures s.expiring + s.expired <= s.total
  {
    var expiring := (r: DomainResult) => IsExpiring(r, parseDate, today);
    var expired := (r: DomainResult) => IsExpired(r, parseDate, today);
    CountDisjoint(expiring, expired, entries);
    Summary(|entries|, Count((r: DomainResult) => !r.loading, entries),
      Count((r: DomainResult) => Truthy(r.error), entries), Count(expiring, entries), Count(expired, entries))
  }

  /** Once every lookup has settled, every entry is counted as checked. */
  lemma SettledEntriesAllChecked(entries: seq<DomainResult>, parseDate: string -> Option<int>, today: int)
    requires forall i :: 0 <= i < |entries| ==> !entries[i].loading
    ensures CalculateSummary(entries, parseDate, today).checked == |entries|
  {
    CountAll((r: DomainResult) => !r.loading, entries);
  }
}
