/**
 * `GET /api/ssl?domain=...` (app/api/ssl/route.ts): domain validation, and
 * the certificate record built from the outcome of the TLS handshake. The
 * socket itself is not modelled; its four outcomes are an input.
 */
module Ssl {
  import opened Wrappers
  import opened DomainNames
  import opened Days

  /**
   * What the socket reports: a completed handshake with the peer
   * certificate's `valid_from` / `valid_to` as millisecond times (`None` when
   * the field is missing or empty), a TLS error, a connection error, or the
   * 10-second socket timeout.
   */
  datatype TlsProbe =
    | Handshake(certFrom: Option<int>, certTo: Option<int>)
    | TlsError(message: string)
    | ConnectionError(message: string)
    | TimedOut

  /** Why a certificate record carries no dates. */
  datatype CertError =
    | MissingDetails
    | TlsFailure(message: string)
    | ConnectionFailure(message: string)
    | CheckTimeout
    | FetchFailed

  /** The `error` text of the record for each reason. */
  function CertErrorText(e: CertError): string {
    match e
    case MissingDetails => "Unable to retrieve SSL certificate details"
    case TlsFailure(m) => "SSL error: " + m
    case ConnectionFailure(m) => "Connection error: " + m
    case CheckTimeout => "SSL check timeout"
    case FetchFailed => "Unable to fetch SSL certificate. Domain may not have HTTPS or be unreachable."
  }

  datatype Certificate = Certificate(
    domain: string,
    validFrom: Option<int>,
    validTo: Option<int>,
    daysRemaining: Option<int>,
    expired: bool,
    error: Option<CertError>)

  /** The request as the handler sees it: `new URL(req.url)` throws, or the `domain` query parameter. */
  datatype SslRequest = UnparsableRequest | Query(domain: Option<string>)

  datatype SslBody = CertificateBody(cert: Certificate) | ErrorBody(error: string)

  datatype SslResponse = SslResponse(status: nat, body: SslBody)

  /** The shape every certificate record has: an error exactly when the dates are missing. */
  predicate WellFormed(c: Certificate) {
    && (c.error.None? <==> c.validFrom.Some? && c.validTo.Some? && c.daysRemaining.Some?)
    && (c.error.Some? ==> c.validFrom.None? && c.validTo.None? && c.daysRemaining.None? && !c.expired)
    && (c.expired ==> c.daysRemaining.Some? && c.daysRemaining.value <= 0)
  }

  /** The `resolve(...)` calls of `getSSLCertificate`, one per socket outcome. */
  function CertificateFor(domain: string, probe: TlsProbe, now: int): (c: Certificate)
    ensures WellFormed(c) && c.domain == domain
    ensures c.error.None? <==> probe.Handshake? && probe.certFrom.Some? && probe.certTo.Some?
    ensures c.error.None? ==>
      && c.validFrom == probe.certFrom && c.validTo == probe.certTo
      && c.daysRemaining == Some(DaysUntil(probe.certTo.value, now))
      && (c.expired <==> now > probe.certTo.value)
  {
    match probe
    case Handshake(from, to) =>
      if from.None? || to.None? then
        Certificate(domain, None, None, None, false, Some(MissingDetails))
      else
        Certificate(domain, from, to, Some(DaysUntil(to.value, now)), now > to.value, None)
    case TlsError(m) => Certificate(domain, None, None, None, false, Some(TlsFailure(m)))
    case ConnectionError(m) => Certificate(domain, None, None, None, false, Some(ConnectionFailure(m)))
    case TimedOut => Certificate(domain, None, None, None, false, Some(CheckTimeout))
  }

  /** The record of the outer `catch`. */
  function Unavailable(): (c: Certificate)
    ensures WellFormed(c) && c.error.Some?
  {
    Certificate("unknown", None, None, None, false,
      Some(FetchFailed))
  }

  /** The answer to a request whose `domain` parameter is `d`. */
  function QueryResponse(d: Option<string>, probe: TlsProbe, now: int): (r: SslResponse)
    ensures r.status == 400 <==> d.None? || ValidRouteDomain(d.value).None?
    ensures r.status == 400 ==> r.body.ErrorBody?
    ensures r.status == 400 || r.status == 200
    ensures r.body.CertificateBody? ==> WellFormed(r.body.cert)
    ensures d.Some? && ValidRouteDomain(d.value).Some? ==>
      r == SslResponse(200, CertificateBody(CertificateFor(ValidRouteDomain(d.value).value, probe, now)))
  {
    if d.None? || d.value == "" then SslResponse(400, ErrorBody("Domain is required"))
    else
      match ValidRouteDomain(d.value)
      case None => SslResponse(400, ErrorBody("Invalid domain format"))
      case Some(clean) => SslResponse(200, CertificateBody(CertificateFor(clean, probe, now)))
  }

  /** The `GET` handler. */
  function SslGet(req: SslRequest, probe: TlsProbe, now: int): (r: SslResponse)
    ensures r.status == 500 <==> req.UnparsableRequest?
    ensures req.UnparsableRequest? ==> r.body.CertificateBody? && r.body.cert.error.Some?
    ensures req.Query? ==> r == QueryResponse(req.domain, probe, now)
    ensures r.body.CertificateBody? ==> WellFormed(r.body.cert)
  {
    match req
    case UnparsableRequest => SslResponse(500, CertificateBody(Unavailable()))
    case Query(d) => QueryResponse(d, probe, now)
  }

  /** A rejected domain is answered without looking at the socket or the clock: no connection is opened. */
  lemma RejectionOpensNoConnection(req: SslRequest, p1: TlsProbe, p2: TlsProbe, now1: int, now2: int)
    requires SslGet(req, p1, now1).status == 400
    ensures SslGet(req, p2, now2) == SslGet(req, p1, now1)
  {
  }
}
