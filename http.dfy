/**
 * What the route handlers see of requests, responses and exceptions once
 * the network is taken out: a thrown value, a field of a JSON request body,
 * and the `response.ok` test.
 */
module Http {
  import opened Wrappers

  /** A value reaching a `catch` clause; `isError` is `value instanceof Error`. */
  datatype Thrown = Thrown(isError: bool, name: string, message: string)

  /** `error instanceof Error && error.name === "AbortError"`: the abort signalled by a timeout. */
  predicate IsAbort(t: Thrown) {
    t.isError && t.name == "AbortError"
  }

  /** A field of a parsed JSON request body: missing or null, a value of another type, or a string. */
  datatype BodyField = Absent | NonString(truthy: bool) | Str(value: string)

  /** `!x || typeof x !== "string"` fails exactly for a non-empty string, which is returned. */
  function RequiredString(f: BodyField): (r: Option<string>)
    ensures r.Some? <==> f.Str? && f.value != ""
    ensures r.Some? ==> r.value == f.value
  {
    if f.Str? && f.value != "" then Some(f.value) else None
  }

  /** `response.ok`: a status in the range 200–299. */
  predicate Ok(status: nat) {
    200 <= status <= 299
  }

  /** JavaScript truthiness of a nullable string. */
  predicate Truthy(s: Option<string>) {
    s.Some? && s.value != ""
  }
}

/**
 * The WHATWG URL parser, which is not part of this model, as the source uses
 * it: `new URL(s)` and its `href`, `origin`, `hostname` and `pathname`, and
 * `new URL(ref, base).href`. `None` stands for the TypeError thrown on an
 * unparsable input.
 */
module Url {
  import opened Wrappers

  datatype UrlParts = UrlParts(href: string, origin: string, hostname: string, pathname: string)

  datatype UrlApi = UrlApi(parse: string -> Option<UrlParts>, resolve: (string, string) -> Option<string>)
}
