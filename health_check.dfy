/**
 * The page check of `POST /api/health-check` (app/api/health-check/route.ts):
 * `getIssueType`, and `checkUrl`'s ladder of rules that set a severity and
 * push an issue, driven by the recorded outcome of the page's GET.
 */
module HealthCheck {
  import opened Wrappers
  import opened Text
  import opened Http
  import opened Url

  // ---------------------------------------------------------------- getIssueType

  datatype IssueType = Security | Css | Speed

  const SecurityWords: seq<string> := ["security", "hacked", "malware"]
  const CssWords: seq<string> := ["css", "content"]
  const SpeedWords: seq<string> := ["slow", "time"]

  /** `i.toLowerCase().includes(w)` for one of `words`. */
  predicate Mentions(issue: string, words: seq<string>) {
    exists k :: 0 <= k < |words| && Contains(Lower(issue), words[k])
  }

  /** `issues.some(...)` over the same test. */
  predicate AnyMentions(issues: seq<string>, words: seq<string>) {
    exists i :: 0 <= i < |issues| && Mentions(issues[i], words)
  }

  /** First match wins: security words, then CSS/content words, then speed words. */
  function GetIssueType(issues: seq<string>): (t: Option<IssueType>)
    ensures t == Some(Security) <==> AnyMentions(issues, SecurityWords)
    ensures t == Some(Css) <==> !AnyMentions(issues, SecurityWords) && AnyMentions(issues, CssWords)
    ensures t == Some(Speed) <==>
      !AnyMentions(issues, SecurityWords) && !AnyMentions(issues, CssWords) && AnyMentions(issues, SpeedWords)
    ensures t == None <==>
      !AnyMentions(issues, SecurityWords) && !AnyMentions(issues, CssWords) && !AnyMentions(issues, SpeedWords)
  {
    if AnyMentions(issues, SecurityWords) then Some(Security)
    else if AnyMentions(issues, CssWords) then Some(Css)
    else if AnyMentions(issues, SpeedWords) then Some(Speed)
    else None
  }

  /** The type depends on which issues occur, not on their order or repetition. */
  lemma IssueTypeIgnoresOrder(a: seq<string>, b: seq<string>)
    requires forall i :: 0 <= i < |a| ==> a[i] in b
    requires forall i :: 0 <= i < |b| ==> b[i] in a
    ensures GetIssueType(a) == GetIssueType(b)
  {
    forall words: seq<string> ensures AnyMentions(a, words) <==> AnyMentions(b, words) {
      if AnyMentions(a, words) {
        var i :| 0 <= i < |a| && Mentions(a[i], words);
        var j :| 0 <= j < |b| && b[j] == a[i];
      }
      if AnyMentions(b, words) {
        var i :| 0 <= i < |b| && Mentions(b[i], words);
        var j :| 0 <= j < |a| && a[j] == b[i];
      }
    }
  }

  // ---------------------------------------------------------------- the eval pattern

  /** `lt[p..]` starts with the lower-case word `w`. */
  predicate WordAt(lt: string, p: nat, w: string) {
    p + |w| <= |lt| && lt[p..p + |w|] == w
  }

  /** The first `>` at or after `i`, or the end. */
  function GtAtOrAfter(lt: string, i: nat): (j: nat)
    requires i <= |lt|
    ensures i <= j <= |lt|
    ensures forall k :: i <= k < j ==> lt[k] != '>'
    ensures j < |lt| ==> lt[j] == '>'
    decreases |lt| - i
  {
    if i < |lt| && lt[i] != '>' then GtAtOrAfter(lt, i + 1) else i
  }

  function SpacesFrom(lt: string, i: nat): (j: nat)
    requires i <= |lt|
    ensures i <= j <= |lt|
    ensures j < |lt| ==> !IsSpace(lt[j])
    decreases |lt| - i
  {
    if i < |lt| && IsSpace(lt[i]) then SpacesFrom(lt, i + 1) else i
  }

  /** `eval\s*\(` at `q`. */
  predicate EvalCallAt(lt: string, q: nat) {
    WordAt(lt, q, "eval") && var j := SpacesFrom(lt, q + 4); j < |lt| && lt[j] == '('
  }

  predicate EvalCallFrom(lt: string, q: nat)
    requires q <= |lt|
    decreases |lt| - q
  {
    q < |lt| && (EvalCallAt(lt, q) || EvalCallFrom(lt, q + 1))
  }

  /**
   * Some match of `/<script[^>]*>[\s\S]*?eval\s*\(/i` starts at or after `p`:
   * a `<script` whose tag closes at the next `>`, followed anywhere later by
   * an `eval` call. Case folding under the `i` flag maps only ASCII letters here.
   */
  predicate EvalScriptFrom(lt: string, p: nat)
    requires p <= |lt|
    decreases |lt| - p
  {
    p < |lt| &&
    ((WordAt(lt, p, "<script") && var g := GtAtOrAfter(lt, p + 7); g < |lt| && EvalCallFrom(lt, g + 1))
     || EvalScriptFrom(lt, p + 1))
  }

  predicate HasEvalScript(text: string) {
    EvalScriptFrom(Lower(text), 0)
  }

  // ---------------------------------------------------------------- checkUrl

  datatype Severity = Healthy | Warning | Error

  /** What the page's GET gave: a thrown error, or a response after `loadTime` ms (rounded). */
  datatype PageOutcome =
    | PageThrew(message: string, elapsed: nat)
    | PageResponse(status: nat, redirected: bool, finalUrl: string, loadTime: nat, body: string)

  datatype PageHealth = PageHealth(
    url: string,
    status: Severity,
    statusCode: nat,
    loadTime: nat,
    issues: seq<string>,
    issueType: Option<IssueType>)

  /**
   * One step of the ladder: when it `fires` it pushes `issue` and sets
   * `severity` — unconditionally, or only while the page is still healthy.
   */
  datatype Rule = Rule(fires: bool, severity: Severity, onlyIfHealthy: bool, issue: string)

  function Step(s: Severity, r: Rule): Severity {
    if !r.fires then s
    else if r.onlyIfHealthy then (if s == Healthy then r.severity else s)
    else r.severity
  }

  /** The severity after applying `rules` in order, starting from `s`. */
  function Apply(s: Severity, rules: seq<Rule>): Severity
    decreases |rules|
  {
    if |rules| == 0 then s else Step(Apply(s, rules[..|rules| - 1]), rules[|rules| - 1])
  }

  function Pushed(r: Rule): seq<string> {
    if r.fires then [r.issue] else []
  }

  /** The issues pushed by `rules`, in order. */
  function Fired(rules: seq<Rule>): seq<string>
    decreases |rules|
  {
    if |rules| == 0 then [] else Fired(rules[..|rules| - 1]) + Pushed(rules[|rules| - 1])
  }

  predicate NeverHealthy(rules: seq<Rule>) {
    forall i :: 0 <= i < |rules| ==> rules[i].severity != Healthy
  }

  /** Once unhealthy, a page stays unhealthy. */
  lemma {:induction false} ApplyKeepsUnhealthy(s: Severity, rules: seq<Rule>)
    requires s != Healthy && NeverHealthy(rules)
    ensures Apply(s, rules) != Healthy
    decreases |rules|
  {
    if |rules| > 0 {
      ApplyKeepsUnhealthy(s, rules[..|rules| - 1]);
    }
  }

  /** When no rule sets `healthy`, the page ends healthy exactly when no rule fired. */
  lemma {:induction false} HealthyIffNothingFired(rules: seq<Rule>)
    requires NeverHealthy(rules)
    ensures Apply(Healthy, rules) == Healthy <==> Fired(rules) == []
  {
    if |rules| > 0 {
      HealthyIffNothingFired(rules[..|rules| - 1]);
    }
  }

  /**
   * The last unconditional rule that fires decides the severity, as long as
   * no rule that only upgrades a healthy page fires after it.
   */
  lemma {:induction false} LastUnconditionalDecides(s: Severity, rules: seq<Rule>, k: nat)
    requires k < |rules| && rules[k].fires && !rules[k].onlyIfHealthy && rules[k].severity != Healthy
    requires forall j :: k < j < |rules| ==> !rules[j].fires || rules[j].onlyIfHealthy
    ensures Apply(s, rules) == rules[k].severity
    decreases |rules|
  {
    if k < |rules| - 1 {
      LastUnconditionalDecides(s, rules[..|rules| - 1], k);
    }
  }

  /** Appending one rule applies it last. */
  lemma ApplySnoc(s: Severity, rules: seq<Rule>, r: Rule)
    ensures Apply(s, rules + [r]) == Step(Apply(s, rules), r)
  {
    assert (rules + [r])[..|rules|] == rules;
  }

  /** Appending one rule pushes its issue last. */
  lemma FiredSnoc(rules: seq<Rule>, r: Rule)
    ensures Fired(rules + [r]) == Fired(rules) + Pushed(r)
  {
    assert (rules + [r])[..|rules|] == rules;
  }

  /** `Apply` over seven rules, spelt out. */
  lemma ApplySeven(s: Severity, r0: Rule, r1: Rule, r2: Rule, r3: Rule, r4: Rule, r5: Rule, r6: Rule)
    ensures Apply(s, [r0] + [r1] + [r2] + [r3] + [r4] + [r5] + [r6]) ==
      Step(Step(Step(Step(Step(Step(Step(s, r0), r1), r2), r3), r4), r5), r6)
  {
    assert [r0][..0] == [];
    ApplySnoc(s, [r0], r1);
    ApplySnoc(s, [r0] + [r1], r2);
    ApplySnoc(s, [r0] + [r1] + [r2], r3);
    ApplySnoc(s, [r0] + [r1] + [r2] + [r3], r4);
    ApplySnoc(s, [r0] + [r1] + [r2] + [r3] + [r4], r5);
    ApplySnoc(s, [r0] + [r1] + [r2] + [r3] + [r4] + [r5], r6);
  }

  /** `Fired` over seven rules, spelt out. */
  lemma FiredSeven(r0: Rule, r1: Rule, r2: Rule, r3: Rule, r4: Rule, r5: Rule, r6: Rule)
    ensures Fired([r0] + [r1] + [r2] + [r3] + [r4] + [r5] + [r6]) ==
      Pushed(r0) + Pushed(r1) + Pushed(r2) + Pushed(r3) + Pushed(r4) + Pushed(r5) + Pushed(r6)
  {
    assert [r0][..0] == [];
    var s1 := [r0] + [r1];
    FiredSnoc([r0], r1);
    assert Fired(s1) == Pushed(r0) + Pushed(r1);
    var s2 := s1 + [r2];
    FiredSnoc(s1, r2);
    var s3 := s2 + [r3];
    FiredSnoc(s2, r3);
    var s4 := s3 + [r4];
    FiredSnoc(s3, r4);
    var s5 := s4 + [r5];
    FiredSnoc(s4, r5);
    FiredSnoc(s5, r6);
  }

  /** `${loadTime / 1000}` formatted with one decimal, halves of a tenth rounded up. */
  function Seconds(loadTime: nat): string {
    var tenths := (loadTime + 50) / 100;
    NatToString(tenths / 10) + "." + [DigitChar(tenths % 10)]
  }

  predicate IsAccessLimitation(code: nat) {
    code == 403 || code == 429 || code == 503
  }

  /** The issue and severity of a non-ok status. */
  function NotOkRule(code: nat): (r: Rule)
    ensures r.fires <==> !Ok(code)
    ensures r.severity == Warning <==> IsAccessLimitation(code)
    ensures r.severity == Error <==> !IsAccessLimitation(code)
  {
    var c := NatToString(code);
    if IsAccessLimitation(code) then Rule(!Ok(code), Warning, false, "Access Limitation (" + c + ") - Bot Protection?")
    else if code == 404 then Rule(!Ok(code), Error, false, "Page Not Found (404)")
    else if code >= 500 then Rule(!Ok(code), Error, false, "Server Error (" + c + ")")
    else Rule(!Ok(code), Error, false, "HTTP Error " + c)
  }

  /** A redirect is off-site when the final origin differs from the request origin and from its `https:` form. */
  predicate OffSite(from: UrlParts, to: UrlParts) {
    from.origin != to.origin && ReplaceFirst(from.origin, "http:", "https:") != to.origin
  }

  /** On a redirected response, `new URL(url)` and `new URL(res.url)` are evaluated and may throw. */
  predicate RedirectUnparsable(api: UrlApi, url: string, o: PageOutcome) {
    o.PageResponse? && Ok(o.status) && o.redirected && (api.parse(url).None? || api.parse(o.finalUrl).None?)
  }

  predicate LooksLikeAppShell(text: string) {
    Contains(text, "<div id=\"root\"") || Contains(text, "<div id=\"app\"") || Contains(text, "__NEXT_DATA__")
  }

  predicate LooksDefaced(text: string) {
    Contains(Lower(text), "hacked by") || Contains(Lower(text), "0wn3d")
  }

  function RedirectRule(api: UrlApi, url: string, o: PageOutcome): (r: Rule)
    requires o.PageResponse? && !RedirectUnparsable(api, url, o)
    ensures r.fires <==>
      Ok(o.status) && o.redirected && OffSite(api.parse(url).value, api.parse(o.finalUrl).value)
    ensures r.severity == Warning && !r.onlyIfHealthy
    ensures r.fires ==> r.issue == "Redirects to: " + api.parse(o.finalUrl).value.hostname
  {
    if Ok(o.status) && o.redirected && OffSite(api.parse(url).value, api.parse(o.finalUrl).value)
    then Rule(true, Warning, false, "Redirects to: " + api.parse(o.finalUrl).value.hostname)
    else Rule(false, Warning, false, "")
  }

  function SlowRule(loadTime: nat): Rule {
    Rule(loadTime > 4000, Warning, true, "Slow load: " + Seconds(loadTime) + "s")
  }

  function InsecureRule(url: string): Rule {
    Rule(StartsWith(url, "http://"), Warning, false, "Insecure (HTTP)")
  }

  function ShortRule(ok: bool, text: string): Rule {
    Rule(ok && |text| < 500 && !LooksLikeAppShell(text), Warning, false, "Content suspiciously short")
  }

  function DefacedRule(ok: bool, text: string): Rule {
    Rule(ok && LooksDefaced(text), Error, false, "Security: Potential defacement")
  }

  function EvalRule(ok: bool, text: string): Rule {
    Rule(ok && HasEvalScript(text), Warning, false, "Suspicious 'eval' in script tags")
  }

  /** The seven rules of `checkUrl`, in the order the source applies them. */
  function Rules(api: UrlApi, url: string, o: PageOutcome): (rules: seq<Rule>)
    requires o.PageResponse? && !RedirectUnparsable(api, url, o)
    ensures |rules| == 7 && NeverHealthy(rules)
  {
    var ok := Ok(o.status);
    [NotOkRule(o.status)] + [RedirectRule(api, url, o)] + [SlowRule(o.loadTime)] + [InsecureRule(url)]
    + [ShortRule(ok, o.body)] + [DefacedRule(ok, o.body)] + [EvalRule(ok, o.body)]
  }

  function Unreachable(url: string, message: string, elapsed: nat): PageHealth {
    PageHealth(url, Error, 0, elapsed, ["Unreachable: " + message], None)
  }

  /** What `checkUrl(url)` returns for the outcome `o` of its GET. */
  function HealthOf(api: UrlApi, url: string, o: PageOutcome): (h: PageHealth)
    ensures h.url == url
  {
    match o
    case PageThrew(message, elapsed) => Unreachable(url, message, elapsed)
    case PageResponse(code, _, _, loadTime, _) =>
      if RedirectUnparsable(api, url, o) then Unreachable(url, "Invalid URL", loadTime)
      else
        var rules := Rules(api, url, o);
        var issues := Fired(rules);
        PageHealth(url, Apply(Healthy, rules), code, loadTime, issues, GetIssueType(issues))
  }

  /**
   * The status and redirect rules, from a healthy page with no issues.
   * `threw` reports the TypeError of `new URL` on an unparsable URL.
   */
  method ResponseRules(api: UrlApi, url: string, o: PageOutcome) returns (status: Severity, issues: seq<string>, threw: bool)
    requires o.PageResponse?
    ensures threw <==> RedirectUnparsable(api, url, o)
    ensures !threw ==>
      && status == Step(Step(Healthy, NotOkRule(o.status)), RedirectRule(api, url, o))
      && issues == Pushed(NotOkRule(o.status)) + Pushed(RedirectRule(api, url, o))
  {
    var code := o.status;
    status, issues, threw := Healthy, [], false;
    if !Ok(code) {
      if code == 403 || code == 429 || code == 503 {
        status := Warning;
        issues := issues + ["Access Limitation (" + NatToString(code) + ") - Bot Protection?"];
      } else if code == 404 {
        status := Error;
        issues := issues + ["Page Not Found (404)"];
      } else if code >= 500 {
        status := Error;
        issues := issues + ["Server Error (" + NatToString(code) + ")"];
      } else {
        status := Error;
        issues := issues + ["HTTP Error " + NatToString(code)];
      }
    } else {
      if o.redirected {
        var from := api.parse(url);
        var to := api.parse(o.finalUrl);
        if from.None? || to.None? {
          return status, issues, true;
        }
        if from.value.origin != to.value.origin {
          if ReplaceFirst(from.value.origin, "http:", "https:") != to.value.origin {
            status := Warning;
            issues := issues + ["Redirects to: " + to.value.hostname];
          }
        }
      }
    }
  }

  /** The slow-load rule, which only upgrades a healthy page, and the `http://` rule. */
  method LoadAndSchemeRules(url: string, loadTime: nat, status0: Severity, issues0: seq<string>)
    returns (status: Severity, issues: seq<string>)
    ensures status == Step(Step(status0, SlowRule(loadTime)), InsecureRule(url))
    ensures issues == issues0 + Pushed(SlowRule(loadTime)) + Pushed(InsecureRule(url))
  {
    status, issues := status0, issues0;
    if loadTime > 4000 {
      if status == Healthy {
        status := Warning;
      }
      issues := issues + ["Slow load: " + Seconds(loadTime) + "s"];
    }
    ghost var st, iss := status, issues;
    assert st == Step(status0, SlowRule(loadTime)) && iss == issues0 + Pushed(SlowRule(loadTime));
    if StartsWith(url, "http://") {
      status := Warning;
      issues := issues + ["Insecure (HTTP)"];
    }
    assert status == Step(st, InsecureRule(url)) && issues == iss + Pushed(InsecureRule(url));
  }

  /** The three rules on the response body, which `checkUrl` applies only to an ok response. */
  method BodyRules(ok: bool, text: string, status0: Severity, issues0: seq<string>)
    returns (status: Severity, issues: seq<string>)
    ensures status == Step(Step(Step(status0, ShortRule(ok, text)), DefacedRule(ok, text)), EvalRule(ok, text))
    ensures issues == issues0 + Pushed(ShortRule(ok, text)) + Pushed(DefacedRule(ok, text)) + Pushed(EvalRule(ok, text))
  {
    status, issues := status0, issues0;
    if ok {
      if |text| < 500 {
        if !LooksLikeAppShell(text) {
          status := Warning;
          issues := issues + ["Content suspiciously short"];
        }
      }
      ghost var st, iss := status, issues;
      assert st == Step(status0, ShortRule(ok, text)) && iss == issues0 + Pushed(ShortRule(ok, text));
      if LooksDefaced(text) {
        status := Error;
        issues := issues + ["Security: Potential defacement"];
      }
      assert status == Step(st, DefacedRule(ok, text)) && issues == iss + Pushed(DefacedRule(ok, text));
      st, iss := status, issues;
      if HasEvalScript(text) {
        status := Warning;
        issues := issues + ["Suspicious 'eval' in script tags"];
      }
      assert status == Step(st, EvalRule(ok, text)) && issues == iss + Pushed(EvalRule(ok, text));
    }
  }

  /** The health of a response, with the seven rules spelt out in order. */
  lemma HealthOfResponse(api: UrlApi, url: string, o: PageOutcome)
    requires o.PageResponse? && !RedirectUnparsable(api, url, o)
    ensures var ok := Ok(o.status);
      var r0, r1, r2, r3 := NotOkRule(o.status), RedirectRule(api, url, o), SlowRule(o.loadTime), InsecureRule(url);
      var r4, r5, r6 := ShortRule(ok, o.body), DefacedRule(ok, o.body), EvalRule(ok, o.body);
      var status := Step(Step(Step(Step(Step(Step(Step(Healthy, r0), r1), r2), r3), r4), r5), r6);
      var issues := Pushed(r0) + Pushed(r1) + Pushed(r2) + Pushed(r3) + Pushed(r4) + Pushed(r5) + Pushed(r6);
      && HealthOf(api, url, o) == PageHealth(url, status, o.status, o.loadTime, issues, GetIssueType(issues))
      && (status == Healthy <==> issues == [])
  {
    var ok := Ok(o.status);
    var rules := Rules(api, url, o);
    ApplySeven(Healthy, NotOkRule(o.status), RedirectRule(api, url, o), SlowRule(o.loadTime), InsecureRule(url),
               ShortRule(ok, o.body), DefacedRule(ok, o.body), EvalRule(ok, o.body));
    FiredSeven(NotOkRule(o.status), RedirectRule(api, url, o), SlowRule(o.loadTime), InsecureRule(url),
               ShortRule(ok, o.body), DefacedRule(ok, o.body), EvalRule(ok, o.body));
    HealthyIffNothingFired(rules);
  }

  /**
   * `checkUrl`: the `status`/`issues` locals updated rule by rule. An
   * unparsable URL in the redirect test throws a TypeError into the `catch`.
   */
  method CheckUrl(api: UrlApi, url: string, o: PageOutcome) returns (h: PageHealth)
    ensures h == HealthOf(api, url, o)
    ensures o.PageThrew? ==>
      h.status == Error && h.statusCode == 0 && h.issues == ["Unreachable: " + o.message] && h.issueType == None
    ensures o.PageResponse? && !RedirectUnparsable(api, url, o) ==>
      && h.statusCode == o.status && h.loadTime == o.loadTime
      && (h.status == Healthy <==> h.issues == [])
      && h.issueType == GetIssueType(h.issues)
  {
    if o.PageThrew? {
      return Unreachable(url, o.message, o.elapsed);
    }
    var code, loadTime, text := o.status, o.loadTime, o.body;
    var ok := Ok(code);
    var status, issues, threw := ResponseRules(api, url, o);
    if threw {
      return Unreachable(url, "Invalid URL", loadTime);
    }
    status, issues := LoadAndSchemeRules(url, loadTime, status, issues);
    status, issues := BodyRules(ok, text, status, issues);
    HealthOfResponse(api, url, o);
    h := PageHealth(url, status, code, loadTime, issues, GetIssueType(issues));
  }

  // ---------------------------------------------------------------- properties of the ladder

  lemma RulesIndex(api: UrlApi, url: string, o: PageOutcome)
    requires o.PageResponse? && !RedirectUnparsable(api, url, o)
    ensures var rules := Rules(api, url, o);
      && rules[0] == NotOkRule(o.status)
      && (rules[1].fires <==>
            Ok(o.status) && o.redirected && OffSite(api.parse(url).value, api.parse(o.finalUrl).value))
      && !rules[1].onlyIfHealthy && rules[1].severity == Warning
      && rules[2].onlyIfHealthy && rules[2].severity == Warning
      && (rules[2].fires <==> o.loadTime > 4000)
      && (rules[3].fires <==> StartsWith(url, "http://")) && !rules[3].onlyIfHealthy && rules[3].severity == Warning
      && (rules[4].fires <==> Ok(o.status) && |o.body| < 500 && !LooksLikeAppShell(o.body))
      && !rules[4].onlyIfHealthy && rules[4].severity == Warning
      && (rules[5].fires <==> Ok(o.status) && LooksDefaced(o.body)) && !rules[5].onlyIfHealthy
      && rules[5].severity == Error
      && (rules[6].fires <==> Ok(o.status) && HasEvalScript(o.body)) && !rules[6].onlyIfHealthy
      && rules[6].severity == Warning
  {
  }

  /** Every response but an access limitation, 404 included, is downgraded to a warning when fetched over `http://`. */
  lemma InsecureOverridesNotFound(api: UrlApi, url: string, o: PageOutcome)
    requires o.PageResponse? && !Ok(o.status) && StartsWith(url, "http://")
    ensures HealthOf(api, url, o).status == Warning
  {
    var rules := Rules(api, url, o);
    RulesIndex(api, url, o);
    LastUnconditionalDecides(Healthy, rules, 3);
  }

  /** A failing status over `https://` stays as the status rule left it, however slow the page. */
  lemma SlowLoadKeepsFailure(api: UrlApi, url: string, o: PageOutcome)
    requires o.PageResponse? && !Ok(o.status) && !StartsWith(url, "http://")
    ensures HealthOf(api, url, o).status == (if IsAccessLimitation(o.status) then Warning else Error)
  {
    var rules := Rules(api, url, o);
    RulesIndex(api, url, o);
    LastUnconditionalDecides(Healthy, rules, 0);
  }

  /** A slow page that no other rule flags goes from healthy to warning. */
  lemma SlowLoadAloneWarns(api: UrlApi, url: string, o: PageOutcome)
    requires o.PageResponse? && !RedirectUnparsable(api, url, o) && o.loadTime > 4000
    requires Ok(o.status) && !RedirectRule(api, url, o).fires && !StartsWith(url, "http://")
    requires (|o.body| >= 500 || LooksLikeAppShell(o.body)) && !LooksDefaced(o.body) && !HasEvalScript(o.body)
    ensures HealthOf(api, url, o).status == Warning
  {
    var ok := Ok(o.status);
    ApplySeven(Healthy, NotOkRule(o.status), RedirectRule(api, url, o), SlowRule(o.loadTime), InsecureRule(url),
               ShortRule(ok, o.body), DefacedRule(ok, o.body), EvalRule(ok, o.body));
  }

  /** The `eval` rule comes last: a page with an `eval` in a script ends as a warning, even when defaced. */
  lemma EvalRuleDecidesLast(api: UrlApi, url: string, o: PageOutcome)
    requires o.PageResponse? && !RedirectUnparsable(api, url, o) && Ok(o.status) && HasEvalScript(o.body)
    ensures HealthOf(api, url, o).status == Warning
  {
    var rules := Rules(api, url, o);
    RulesIndex(api, url, o);
    LastUnconditionalDecides(Healthy, rules, 6);
  }

  /** A defaced page without an `eval` script is an error, whatever the earlier rules said. */
  lemma DefacementIsAnError(api: UrlApi, url: string, o: PageOutcome)
    requires o.PageResponse? && !RedirectUnparsable(api, url, o) && Ok(o.status)
    requires LooksDefaced(o.body) && !HasEvalScript(o.body)
    ensures HealthOf(api, url, o).status == Error
  {
    var rules := Rules(api, url, o);
    RulesIndex(api, url, o);
    LastUnconditionalDecides(Healthy, rules, 5);
  }

  /** The body is read only when the response is ok: a failing response's health does not depend on it. */
  lemma FailingResponseIgnoresBody(api: UrlApi, url: string, o: PageOutcome, body: string)
    requires o.PageResponse? && !Ok(o.status)
    ensures HealthOf(api, url, o) == HealthOf(api, url, o.(body := body))
  {
  }
}
