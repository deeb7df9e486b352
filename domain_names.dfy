/**
 * The DNS name grammar shared by the WHOIS route, the SSL route and the
 * domain checker form, and the cleaning chain the two routes apply before it.
 * The regex `^[a-z0-9]([a-z0-9-]{0,61}[a-z0-9])?(\.[a-z0-9]([a-z0-9-]{0,61}[a-z0-9])?)*$`
 * is written as a predicate on the dot-separated labels.
 */
module DomainNames {
  import opened Wrappers
  import opened Text

  predicate IsLowerAlnum(c: char) {
    'a' <= c <= 'z' || '0' <= c <= '9'
  }

  predicate IsLabelChar(c: char) {
    IsLowerAlnum(c) || c == '-'
  }

  /** One label: 1 to 63 characters of `[a-z0-9-]`, starting and ending with a letter or digit. */
  predicate IsLabel(l: string) {
    && 1 <= |l| <= 63
    && IsLowerAlnum(l[0]) && IsLowerAlnum(l[|l| - 1])
    && forall i :: 0 <= i < |l| ==> IsLabelChar(l[i])
  }

  /** The whole regex: the string splits on `.` into labels only. */
  predicate IsDomainName(s: string) {
    var labels := Split(s, {'.'});
    forall k :: 0 <= k < |labels| ==> IsLabel(labels[k])
  }

  /** Every character of a string lies in `ok` or among the separators when every piece's does. */
  lemma {:induction false} SplitCovers(s: string, seps: set<char>, ok: char -> bool)
    requires forall k, i :: 0 <= k < |Split(s, seps)| && 0 <= i < |Split(s, seps)[k]| ==> ok(Split(s, seps)[k][i])
    ensures forall i :: 0 <= i < |s| ==> ok(s[i]) || s[i] in seps
  {
    if |s| > 0 {
      var rest := Split(s[1..], seps);
      var r := Split(s, seps);
      if s[0] in seps {
        assert r == [[]] + rest;
        assert forall k :: 0 <= k < |rest| ==> rest[k] == r[k + 1];
      } else {
        assert r == [[s[0]] + rest[0]] + rest[1..];
        assert ok(s[0]) by { assert r[0][0] == s[0]; }
        forall k, i | 0 <= k < |rest| && 0 <= i < |rest[k]| ensures ok(rest[k][i]) {
          if k == 0 {
            assert rest[0][i] == r[0][i + 1];
          } else {
            assert rest[k] == r[k];
          }
        }
      }
      SplitCovers(s[1..], seps, ok);
      assert forall i :: 1 <= i < |s| ==> s[i] == s[1..][i - 1];
    }
  }

  /** A domain name is non-empty and made of lower-case letters, digits, `-` and `.` only. */
  lemma DomainNameAlphabet(s: string)
    requires IsDomainName(s)
    ensures s != []
    ensures forall i :: 0 <= i < |s| ==> IsLabelChar(s[i]) || s[i] == '.'
  {
    var labels := Split(s, {'.'});
    assert IsLabel(labels[0]);
    SplitCovers(s, {'.'}, IsLabelChar);
  }

  /**
   * The cleaning chain of `app/api/whois/route.ts` and `app/api/ssl/route.ts`:
   * remove every `http://` and `https://`, strip one leading `www.`, keep the
   * text before the first `/`, lower-case, and trim last.
   */
  function CleanRouteDomain(raw: string): (r: string)
    ensures '/' !in r
    ensures forall i :: 0 <= i < |r| ==> !('A' <= r[i] <= 'Z')
    ensures r == [] || (!IsSpace(r[0]) && !IsSpace(r[|r| - 1]))
  {
    var host := Split(DropPrefix(RemoveSchemes(raw), "www."), {'/'})[0];
    var lower := Lower(host);
    assert '/' !in lower;
    TrimKeepsChars(lower);
    Trim(lower)
  }

  /**
   * A domain name that does not begin with `www.` comes out of the cleaning
   * chain unchanged.
   */
  lemma CleanRouteDomainFixesNames(s: string)
    requires IsDomainName(s) && !StartsWith(s, "www.")
    ensures CleanRouteDomain(s) == s
  {
    DomainNameAlphabet(s);
    RemoveSchemesWithoutColon(s);
    assert DropPrefix(s, "www.") == s;
    SplitWithoutSeparator(s, {'/'});
    assert forall i :: 0 <= i < |s| ==> LowerChar(s[i]) == s[i];
    assert Lower(s) == s;
    assert !IsSpace(s[0]) && !IsSpace(s[|s| - 1]);
    assert TrimStart(s) == s;
    assert TrimEnd(s) == s;
  }

  /**
   * The route's validation: a cleaned domain that is empty or does not match
   * the grammar is rejected (the 400 answer); otherwise it is the domain looked up.
   */
  function ValidRouteDomain(raw: string): (r: Option<string>)
    ensures r.Some? <==> IsDomainName(CleanRouteDomain(raw))
    ensures r.Some? ==> r.value == CleanRouteDomain(raw) && r.value != []
  {
    var c := CleanRouteDomain(raw);
    assert Split([], {'.'}) == [[]];
    if c == [] || !IsDomainName(c) then None else Some(c)
  }
}
