/**
 * `POST /api/whois` (app/api/whois/route.ts): domain validation, the RDAP
 * lookup with its event and registrar extraction (RFC 9083 section 4.5
 * events, RFC 7095 jCard `fn`), the WHOIS-page fallback, and the mapping of
 * exceptions to HTTP statuses. Both fetches are inputs.
 */
module Whois {
  import opened Wrappers
  import opened Text
  import opened Seqs
  import opened Http
  import opened DomainNames

  /** A JSON value as far as the vCard walk tells values apart: strings, arrays, and everything else. */
  datatype Json = JStr(str: string) | JArr(items: seq<Json>) | JOther

  /** An RDAP event; a field that is absent is `None`. */
  datatype RdapEvent = RdapEvent(eventAction: Option<string>, eventDate: Option<string>)

  /** An RDAP entity; `vcardArray` is `None` when absent (any array, even an empty one, is truthy). */
  datatype RdapEntity = RdapEntity(roles: Option<seq<string>>, vcardArray: Option<seq<Json>>)

  /** The RDAP response body; a member is `None` when it is absent or not an array. */
  datatype RdapData = RdapData(
    events: Option<seq<RdapEvent>>,
    entities: Option<seq<RdapEntity>>,
    status: Option<seq<string>>)

  datatype WhoisRecord = WhoisRecord(
    domain: string,
    expiryDate: Option<string>,
    creationDate: Option<string>,
    updatedDate: Option<string>,
    registrar: Option<Json>,
    status: seq<string>)

  // ---------------------------------------------------------------- RDAP events

  /**
   * The `eventDate` of the last event whose `eventAction` is `action`, as the
   * event loop leaves it: each matching event overwrites the previous one.
   */
  function LastEventDate(events: seq<RdapEvent>, action: string): (d: Option<string>)
    ensures (forall j :: 0 <= j < |events| ==> events[j].eventAction != Some(action)) ==> d.None?
    ensures forall k ::
      (0 <= k < |events| && events[k].eventAction == Some(action) &&
       forall j :: k < j < |events| ==> events[j].eventAction != Some(action)) ==>
        d == events[k].eventDate
  {
    if |events| == 0 then None
    else
      var last := events[|events| - 1];
      if last.eventAction == Some(action) then last.eventDate
      else LastEventDate(events[..|events| - 1], action)
  }

  function EventDate(data: RdapData, action: string): Option<string> {
    if data.events.Some? then LastEventDate(data.events.value, action) else None
  }

  // ---------------------------------------------------------------- vCard

  /** `prop[0] === "fn"`: only an array whose first element is the string `fn` qualifies. */
  predicate IsFnProperty(prop: Json) {
    prop.JArr? && |prop.items| > 0 && prop.items[0] == JStr("fn")
  }

  /** `prop[3]` of an array, `None` when there is no such element. */
  function Element3(prop: Json): Option<Json> {
    if prop.JArr? && |prop.items| > 3 then Some(prop.items[3]) else None
  }

  /** Element 3 of the first `fn` property, or `None`. */
  function FirstFnValue(props: seq<Json>): Option<Json> {
    if |props| == 0 then None
    else if IsFnProperty(props[0]) then Element3(props[0])
    else FirstFnValue(props[1..])
  }

  /** The first `fn` property decides the name. */
  lemma {:induction false} FirstFnValueAt(props: seq<Json>, k: nat)
    requires k < |props| && IsFnProperty(props[k])
    requires forall j :: 0 <= j < k ==> !IsFnProperty(props[j])
    ensures FirstFnValue(props) == Element3(props[k])
  {
    if k > 0 {
      assert !IsFnProperty(props[0]);
      FirstFnValueAt(props[1..], k - 1);
    }
  }

  /** Without an `fn` property there is no name. */
  lemma {:induction false} FirstFnValueAbsent(props: seq<Json>)
    requires forall j :: 0 <= j < |props| ==> !IsFnProperty(props[j])
    ensures FirstFnValue(props) == None
  {
    if |props| > 0 {
      FirstFnValueAbsent(props[1..]);
    }
  }

  /** `extractVCardName`: the loop over `vcard` that returns at the first `fn` property. */
  method ExtractVCardName(vcard: seq<Json>) returns (name: Option<Json>)
    ensures name == FirstFnValue(vcard)
  {
    var i := 0;
    while i < |vcard|
      invariant 0 <= i <= |vcard|
      invariant FirstFnValue(vcard[i..]) == FirstFnValue(vcard)
    {
      assert vcard[i..][1..] == vcard[i + 1..];
      if IsFnProperty(vcard[i]) {
        return Element3(vcard[i]);
      }
      i := i + 1;
    }
    return None;
  }

  /** An RFC 7095 jCard: the string `vcard` followed by the array of properties, each itself an array. */
  predicate IsJCard(vcardArray: seq<Json>) {
    && |vcardArray| == 2 && vcardArray[0] == JStr("vcard") && vcardArray[1].JArr?
    && forall j :: 0 <= j < |vcardArray[1].items| ==> vcardArray[1].items[j].JArr?
  }

  /**
   * As written, `extractVCardName(entity.vcardArray)` walks the two elements
   * of the jCard itself, neither of which is an `fn` property, so it finds no
   * name in any well-formed jCard.
   */
  lemma ExtractVCardNameMissesJCard(vcardArray: seq<Json>)
    requires IsJCard(vcardArray)
    ensures FirstFnValue(vcardArray) == None
  {
    var props := vcardArray[1].items;
    assert props == [] || props[0].JArr?;
    assert !IsFnProperty(vcardArray[0]) && !IsFnProperty(vcardArray[1]);
    FirstFnValueAbsent(vcardArray);
  }

  /** The registrar name looked up where RFC 7095 puts it: in the property list of the jCard. */
  function JCardName(vcardArray: seq<Json>): (name: Option<Json>)
    ensures IsJCard(vcardArray) ==> name == FirstFnValue(vcardArray[1].items)
  {
    if |vcardArray| == 2 && vcardArray[0] == JStr("vcard") && vcardArray[1].JArr?
    then FirstFnValue(vcardArray[1].items)
    else FirstFnValue(vcardArray)
  }

  /** With the property list searched, a jCard whose first `fn` is `["fn", {}, "text", n]` yields `n`. */
  lemma JCardNameFindsFn(props: seq<Json>, k: nat, n: string)
    requires k < |props| && props[k] == JArr([JStr("fn"), JOther, JStr("text"), JStr(n)])
    requires forall j :: 0 <= j < k ==> !IsFnProperty(props[j])
    ensures JCardName([JStr("vcard"), JArr(props)]) == Some(JStr(n))
  {
    FirstFnValueAt(props, k);
  }

  /** A concrete registrar entity's jCard: the code as written reports no registrar, the corrected walk finds it. */
  lemma RegistrarJCardExample()
    ensures var card := [JStr("vcard"), JArr([
              JArr([JStr("version"), JOther, JStr("text"), JStr("4.0")]),
              JArr([JStr("fn"), JOther, JStr("text"), JStr("Example Registrar")])])];
      FirstFnValue(card) == None && JCardName(card) == Some(JStr("Example Registrar"))
  {
    var props := [
      JArr([JStr("version"), JOther, JStr("text"), JStr("4.0")]),
      JArr([JStr("fn"), JOther, JStr("text"), JStr("Example Registrar")])];
    var card := [JStr("vcard"), JArr(props)];
    ExtractVCardNameMissesJCard(card);
    JCardNameFindsFn(props, 1, "Example Registrar");
  }

  // ---------------------------------------------------------------- registrar entity

  /** `entity.roles && entity.roles.includes("registrar") && entity.vcardArray`. */
  predicate IsRegistrarEntity(e: RdapEntity) {
    e.roles.Some? && "registrar" in e.roles.value && e.vcardArray.Some?
  }

  /** The index of the first registrar entity, where the entity loop breaks. */
  function FirstRegistrar(entities: seq<RdapEntity>): (k: Option<nat>)
    ensures k.Some? ==>
      k.value < |entities| && IsRegistrarEntity(entities[k.value]) &&
      forall j :: 0 <= j < k.value ==> !IsRegistrarEntity(entities[j])
    ensures k.None? ==> forall j :: 0 <= j < |entities| ==> !IsRegistrarEntity(entities[j])
  {
    if |entities| == 0 then None
    else if IsRegistrarEntity(entities[0]) then Some(0)
    else
      var rest := FirstRegistrar(entities[1..]);
      if rest.Some? then Some(rest.value + 1) else None
  }

  /**
   * The registrar reported: the name in the first registrar entity's
   * `vcardArray`, looked up with the corrected jCard walk `JCardName`.
   */
  function RegistrarName(data: RdapData): Option<Json> {
    if data.entities.None? then None else EntitiesRegistrar(data.entities.value)
  }

  /** The name in the first registrar entity's `vcardArray`, if there is such an entity. */
  function EntitiesRegistrar(entities: seq<RdapEntity>): Option<Json> {
    var k := FirstRegistrar(entities);
    if k.None? then None else JCardName(entities[k.value].vcardArray.value)
  }

  /** The record `parseRDAPResponse` builds: the last date of each event kind, the registrar and the status copy. */
  function RdapRecord(data: RdapData, domain: string): WhoisRecord {
    WhoisRecord(domain, EventDate(data, "expiration"), EventDate(data, "registration"),
      EventDate(data, "last changed"), RegistrarName(data), data.status.GetOr([]))
  }

  /** The event loop of `parseRDAPResponse`: each kind of event keeps the date of the last event of that kind. */
  method ScanEvents(events: seq<RdapEvent>)
    returns (expiryDate: Option<string>, creationDate: Option<string>, updatedDate: Option<string>)
    ensures expiryDate == LastEventDate(events, "expiration")
    ensures creationDate == LastEventDate(events, "registration")
    ensures updatedDate == LastEventDate(events, "last changed")
  {
    expiryDate, creationDate, updatedDate := None, None, None;
    var i := 0;
    while i < |events|
      invariant 0 <= i <= |events|
      invariant expiryDate == LastEventDate(events[..i], "expiration")
      invariant creationDate == LastEventDate(events[..i], "registration")
      invariant updatedDate == LastEventDate(events[..i], "last changed")
    {
      var event := events[i];
      assert events[..i + 1][..i] == events[..i];
      if event.eventAction == Some("expiration") {
        expiryDate := event.eventDate;
      } else if event.eventAction == Some("registration") {
        creationDate := event.eventDate;
      } else if event.eventAction == Some("last changed") {
        updatedDate := event.eventDate;
      }
      i := i + 1;
    }
    assert events[..i] == events;
  }

  /**
   * The entity loop of `parseRDAPResponse`, with its `break` at the first
   * registrar entity. The registrar's `fn` is searched in the jCard's
   * property list.
   */
  method ScanEntities(entities: seq<RdapEntity>) returns (registrar: Option<Json>)
    ensures registrar == EntitiesRegistrar(entities)
  {
    registrar := None;
    var i := 0;
    while i < |entities|
      invariant 0 <= i <= |entities|
      invariant forall j :: 0 <= j < i ==> !IsRegistrarEntity(entities[j])
    {
      if IsRegistrarEntity(entities[i]) {
        assert FirstRegistrar(entities) == Some(i);
        var card := entities[i].vcardArray.value;
        if |card| == 2 && card[0] == JStr("vcard") && card[1].JArr? {
          registrar := ExtractVCardName(card[1].items);
        } else {
          registrar := ExtractVCardName(card);
        }
        return;
      }
      i := i + 1;
    }
  }

  /** `parseRDAPResponse`: the event loop, the entity loop and the copy of `data.status`. */
  method ParseRdapResponse(data: RdapData, domain: string) returns (r: WhoisRecord)
    ensures r.domain == domain
    ensures r.expiryDate == EventDate(data, "expiration")
    ensures r.creationDate == EventDate(data, "registration")
    ensures r.updatedDate == EventDate(data, "last changed")
    ensures r.registrar == RegistrarName(data)
    ensures r.status == data.status.GetOr([])
    ensures r == RdapRecord(data, domain)
  {
    var expiryDate: Option<string> := None;
    var creationDate: Option<string> := None;
    var updatedDate: Option<string> := None;
    var registrar: Option<Json> := None;
    var status: seq<string> := [];

    if data.events.Some? {
      expiryDate, creationDate, updatedDate := ScanEvents(data.events.value);
    }

    if data.entities.Some? {
      registrar := ScanEntities(data.entities.value);
    }

    if data.status.Some? {
      status := status + data.status.value;
      assert status == data.status.value;
    }

    r := WhoisRecord(domain, expiryDate, creationDate, updatedDate, registrar, status);
  }

  // ---------------------------------------------------------------- WHOIS page fallback

  /**
   * The first capture of each of the five patterns of `parseWhoisHTML`
   * (`Expir…`, `Creat…`, `Updat…`, `Registrar`, `Status`), `None` when it does
   * not match. The regex engine is not part of this model.
   */
  datatype WhoisMatches = WhoisMatches(
    expiry: Option<string>,
    created: Option<string>,
    updated: Option<string>,
    registrar: Option<string>,
    status: Option<string>)

  predicate IsStatusSeparator(c: char) {
    c == ',' || c == ';'
  }

  function TrimmedCapture(m: Option<string>): Option<string> {
    if m.Some? then Some(Trim(m.value)) else None
  }

  /** `statusStr.split(/[,;]/).map(s => s.trim())`. */
  function StatusPieces(statusStr: string): (pieces: seq<string>)
    ensures |pieces| >= 1
    ensures forall k, i :: 0 <= k < |pieces| && 0 <= i < |pieces[k]| ==> !IsStatusSeparator(pieces[k][i])
    ensures forall k :: 0 <= k < |pieces| ==> Trim(pieces[k]) == pieces[k]
  {
    var raw := Split(statusStr, {',', ';'});
    var pieces := MapSeq(Trim, raw);
    forall k | 0 <= k < |pieces| ensures Trim(pieces[k]) == pieces[k] {
      TrimIdempotent(raw[k]);
    }
    forall k, i | 0 <= k < |pieces| && 0 <= i < |pieces[k]| ensures !IsStatusSeparator(pieces[k][i]) {
      TrimKeepsChars(raw[k]);
      assert pieces[k][i] in Trim(raw[k]);
    }
    pieces
  }

  /** A status line without separators is reported as its one trimmed value. */
  lemma {:induction false} StatusPiecesSingle(statusStr: string)
    requires forall i :: 0 <= i < |statusStr| ==> !IsStatusSeparator(statusStr[i])
    ensures StatusPieces(statusStr) == [Trim(statusStr)]
  {
    SplitWithoutSeparator(statusStr, {',', ';'});
  }

  /**
   * A `,` or `;` ends one status piece and starts the next: together with
   * `StatusPiecesSingle` this fixes the pieces of every status line.
   */
  lemma StatusPiecesAtSeparator(a: string, c: char, b: string)
    requires IsStatusSeparator(c)
    ensures StatusPieces(a + [c] + b) == StatusPieces(a) + StatusPieces(b)
  {
    SplitAtSeparator(a, c, b, {',', ';'});
    MapAppend(Trim, Split(a, {',', ';'}), Split(b, {',', ';'}));
  }

  /** `parseWhoisHTML`: each field is its trimmed capture or `null`; the status is split and trimmed. */
  function ParseWhoisHtml(m: WhoisMatches, domain: string): (r: WhoisRecord)
    ensures r.domain == domain
    ensures r.expiryDate.Some? <==> m.expiry.Some?
    ensures r.creationDate.Some? <==> m.created.Some?
    ensures r.updatedDate.Some? <==> m.updated.Some?
    ensures r.registrar.Some? <==> m.registrar.Some?
    ensures m.status.None? <==> r.status == []
    ensures m.expiry.Some? ==> r.expiryDate == Some(Trim(m.expiry.value))
    ensures m.created.Some? ==> r.creationDate == Some(Trim(m.created.value))
    ensures m.updated.Some? ==> r.updatedDate == Some(Trim(m.updated.value))
    ensures m.registrar.Some? ==> r.registrar == Some(JStr(Trim(m.registrar.value)))
    ensures m.status.Some? ==> r.status == StatusPieces(Trim(m.status.value))
  {
    WhoisRecord(
      domain,
      TrimmedCapture(m.expiry),
      TrimmedCapture(m.created),
      TrimmedCapture(m.updated),
      if m.registrar.Some? then Some(JStr(Trim(m.registrar.value))) else None,
      if m.status.Some? then StatusPieces(Trim(m.status.value)) else [])
  }

  // ---------------------------------------------------------------- the route

  /** The RDAP request: it failed (the `.catch(() => null)`), or answered; `body` is `None` when it is not JSON. */
  datatype RdapFetch = RdapUnreachable | RdapAnswered(ok: bool, body: Option<RdapData>)

  /** The fallback request to the WHOIS page: it threw, or answered with the page's pattern matches. */
  datatype WhoisPageFetch = WhoisPageThrew(thrown: Thrown) | WhoisPageAnswered(ok: bool, matches: WhoisMatches)

  /** The failure messages of the route. */
  datatype WhoisError = DomainRequired | InvalidDomainFormat | RequestTimeout | LookupUnavailable

  /** The text each failure message is sent with. */
  function ErrorText(e: WhoisError): string {
    match e
    case DomainRequired => "Domain is required"
    case InvalidDomainFormat => "Invalid domain format"
    case RequestTimeout => "Request timeout. Please try again."
    case LookupUnavailable => "Unable to fetch domain information. The domain may not exist or be restricted."
  }

  datatype WhoisResponse = WhoisFound(record: WhoisRecord) | WhoisFailed(status: nat, error: WhoisError)

  /** The outer `catch`: an abort is a 504, anything else a 500. */
  function FailureResponse(t: Thrown): (r: WhoisResponse)
    ensures r.WhoisFailed?
    ensures r.status == 504 <==> IsAbort(t)
    ensures r.status == 500 <==> !IsAbort(t)
  {
    if IsAbort(t) then WhoisFailed(504, RequestTimeout)
    else WhoisFailed(500, LookupUnavailable)
  }

  function RdapUrl(domain: string): string {
    "https://rdap.org/domain/" + domain
  }

  /** `encodeURIComponent` leaves `[a-z0-9.-]` alone, so a valid domain goes into the query as it is. */
  function WhoisPageUrl(domain: string): string {
    "https://www.whois.vu/?domain=" + domain
  }

  /**
   * The `POST` handler. `requested` lists the URLs fetched, in order.
   */
  method WhoisPost(domain: BodyField, rdap: RdapFetch, page: WhoisPageFetch)
    returns (resp: WhoisResponse, requested: seq<string>)
    ensures RequiredString(domain).None? ==> resp == WhoisFailed(400, DomainRequired) && requested == []
    ensures RequiredString(domain).Some? && ValidRouteDomain(domain.value).None? ==>
      resp == WhoisFailed(400, InvalidDomainFormat) && requested == []
    ensures RequiredString(domain).Some? && ValidRouteDomain(domain.value).Some? ==>
      var clean := ValidRouteDomain(domain.value).value;
      && |requested| >= 1 && requested[0] == RdapUrl(clean)
      && (rdap.RdapAnswered? && rdap.ok ==> requested == [RdapUrl(clean)])
      && (!(rdap.RdapAnswered? && rdap.ok) ==> requested == [RdapUrl(clean), WhoisPageUrl(clean)])
      && resp == LookUpAnswer(clean, rdap, page)
  {
    if RequiredString(domain).None? {
      return WhoisFailed(400, DomainRequired), [];
    }
    var valid := ValidRouteDomain(domain.value);
    if valid.None? {
      return WhoisFailed(400, InvalidDomainFormat), [];
    }
    resp, requested := LookUp(valid.value, rdap, page);
  }

  /** The lookups for a valid cleaned domain: RDAP first, the WHOIS page when RDAP is not ok. */
  method LookUp(clean: string, rdap: RdapFetch, page: WhoisPageFetch)
    returns (resp: WhoisResponse, requested: seq<string>)
    ensures |requested| >= 1 && requested[0] == RdapUrl(clean)
    ensures rdap.RdapAnswered? && rdap.ok ==> requested == [RdapUrl(clean)]
    ensures !(rdap.RdapAnswered? && rdap.ok) ==> requested == [RdapUrl(clean), WhoisPageUrl(clean)]
    ensures resp == LookUpAnswer(clean, rdap, page)
  {
    requested := [RdapUrl(clean)];
    if rdap.RdapAnswered? && rdap.ok {
      resp := FromRdap(clean, rdap.body);
      return;
    }
    requested := requested + [WhoisPageUrl(clean)];
    resp := FromWhoisPage(clean, page);
  }

  /** The answer of the lookup: RDAP's when RDAP answered ok, the WHOIS page's otherwise. */
  function LookUpAnswer(clean: string, rdap: RdapFetch, page: WhoisPageFetch): WhoisResponse {
    if rdap.RdapAnswered? && rdap.ok then RdapAnswer(clean, rdap.body) else WhoisPageAnswer(clean, page)
  }

  /**
   * A found record is for the cleaned domain; a failure is a 500 or a 504. An
   * ok RDAP answer gives the record of its body, or a 500 when the body is not
   * JSON; otherwise the WHOIS page decides, and a 504 comes exactly from an
   * aborted fetch of that page.
   */
  lemma LookUpAnswerFacts(clean: string, rdap: RdapFetch, page: WhoisPageFetch)
    ensures var resp := LookUpAnswer(clean, rdap, page);
      && (resp.WhoisFound? ==> resp.record.domain == clean)
      && (resp.WhoisFailed? ==> resp.status == 500 || resp.status == 504)
      && (rdap.RdapAnswered? && rdap.ok && rdap.body.None? ==> resp.WhoisFailed? && resp.status == 500)
      && (rdap.RdapAnswered? && rdap.ok && rdap.body.Some? ==> resp == WhoisFound(RdapRecord(rdap.body.value, clean)))
      && (!(rdap.RdapAnswered? && rdap.ok) ==> resp == WhoisPageAnswer(clean, page))
      && (resp.WhoisFailed? && resp.status == 504 ==> page.WhoisPageThrew? && IsAbort(page.thrown))
      && (!(rdap.RdapAnswered? && rdap.ok) && page.WhoisPageThrew? && IsAbort(page.thrown) ==>
            resp == WhoisFailed(504, RequestTimeout))
  {
    if rdap.RdapAnswered? && rdap.ok {
      if rdap.body.None? {
        var t := Thrown(true, "SyntaxError", "Unexpected token");
        assert !IsAbort(t) by { assert t.name != "AbortError"; }
      }
    } else {
      WhoisPageAnswerFacts(clean, page);
    }
  }

  /** The answer built from an ok RDAP response: the record of its body, or the failure of the JSON error. */
  function RdapAnswer(clean: string, body: Option<RdapData>): WhoisResponse {
    if body.None? then FailureResponse(Thrown(true, "SyntaxError", "Unexpected token"))
    else WhoisFound(RdapRecord(body.value, clean))
  }

  /** The answer built from an ok RDAP response, whose body may fail to parse as JSON. */
  method FromRdap(clean: string, body: Option<RdapData>) returns (resp: WhoisResponse)
    ensures resp == RdapAnswer(clean, body)
  {
    if body.None? {
      // `response.json()` throws a SyntaxError, which the outer `catch` turns into a 500.
      resp := FailureResponse(Thrown(true, "SyntaxError", "Unexpected token"));
    } else {
      var record := ParseRdapResponse(body.value, clean);
      resp := WhoisFound(record);
    }
  }

  /**
   * The answer of the WHOIS page fallback: a thrown fetch is its failure, a
   * non-ok page the "any service" failure, an ok page its parsed record.
   */
  function WhoisPageAnswer(clean: string, page: WhoisPageFetch): WhoisResponse {
    match page
    case WhoisPageThrew(t) => FailureResponse(t)
    case WhoisPageAnswered(ok, matches) =>
      if !ok then FailureResponse(Thrown(true, "Error", "Unable to fetch WHOIS data from any service"))
      else WhoisFound(ParseWhoisHtml(matches, clean))
  }

  /**
   * The fallback's outcomes: a found record comes from an ok page and is for
   * the cleaned domain; a failure is a 504 exactly when the fetch was aborted
   * and a 500 otherwise, and a page that is not ok is the generic 500.
   */
  lemma WhoisPageAnswerFacts(clean: string, page: WhoisPageFetch)
    ensures var resp := WhoisPageAnswer(clean, page);
      && (resp.WhoisFound? ==> page.WhoisPageAnswered? && page.ok && resp.record.domain == clean)
      && (resp.WhoisFailed? ==> (resp.status == 504 <==> page.WhoisPageThrew? && IsAbort(page.thrown)))
      && (resp.WhoisFailed? ==> resp.status == 500 || resp.status == 504)
      && (page.WhoisPageAnswered? && !page.ok ==>
            resp == WhoisFailed(500, LookupUnavailable))
  {
    match page
    case WhoisPageThrew(t) =>
    case WhoisPageAnswered(ok, matches) =>
      if ok {
        assert WhoisPageAnswer(clean, page) == WhoisFound(ParseWhoisHtml(matches, clean));
      } else {
        var t := Thrown(true, "Error", "Unable to fetch WHOIS data from any service");
        assert !IsAbort(t) by { assert t.name != "AbortError"; }
      }
  }

  /** The answer built from the WHOIS page fallback. */
  method FromWhoisPage(clean: string, page: WhoisPageFetch) returns (resp: WhoisResponse)
    ensures resp == WhoisPageAnswer(clean, page)
  {
    match page {
      case WhoisPageThrew(t) =>
        resp := FailureResponse(t);
      case WhoisPageAnswered(ok, matches) =>
        if !ok {
          resp := FailureResponse(Thrown(true, "Error", "Unable to fetch WHOIS data from any service"));
        } else {
          resp := WhoisFound(ParseWhoisHtml(matches, clean));
        }
    }
  }
}
