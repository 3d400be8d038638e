/**
 * HTTP security headers (middleware/security_headers.py): the
 * `after_request` hook that fills a response's header table in place.
 */
module SecurityHeaders {

  // The directives of the Content Security Policy, in the order the policy lists them.
  const DEFAULT_SRC: string := "default-src 'self'"
  const SCRIPT_SRC: string :=
    "script-src 'self' 'unsafe-inline' https://cdn.tailwindcss.com https://unpkg.com https://cdn.jsdelivr.net"
  const STYLE_SRC: string := "style-src 'self' 'unsafe-inline'"
  const IMG_SRC: string := "img-src 'self' data:"
  const FONT_SRC: string := "font-src 'self'"
  const CONNECT_SRC: string := "connect-src 'self'"
  const FRAME_ANCESTORS: string := "frame-ancestors 'none'"
  const BASE_URI: string := "base-uri 'self'"
  const FORM_ACTION: string := "form-action 'self'"

  const CSP_DIRECTIVES: seq<string> :=
    [DEFAULT_SRC, SCRIPT_SRC, STYLE_SRC, IMG_SRC, FONT_SRC, CONNECT_SRC, FRAME_ANCESTORS, BASE_URI, FORM_ACTION]

  /** Directives joined by "; ", the last one closed by ";". */
  function JoinPolicy(directives: seq<string>): string
    requires |directives| > 0
  {
    if |directives| == 1 then directives[0] + ";"
    else directives[0] + "; " + JoinPolicy(directives[1..])
  }

  /** `CSP_POLICY`. */
  const CSP_POLICY: string := JoinPolicy(CSP_DIRECTIVES)

  const HSTS_VALUE: string := "max-age=31536000; includeSubDomains"
  const PERMISSIONS_POLICY: string := "geolocation=(), microphone=(), camera=(), payment=(), usb=()"
  const CACHE_CONTROL_DEFAULT: string := "no-store, max-age=0"

  /** The headers the hook always assigns, with their values. */
  const ALWAYS_SET: map<string, string> := map[
    "X-Content-Type-Options" := "nosniff",
    "X-Frame-Options" := "DENY",
    "X-XSS-Protection" := "1; mode=block",
    "Content-Security-Policy" := CSP_POLICY,
    "Permissions-Policy" := PERMISSIONS_POLICY,
    "Cross-Origin-Opener-Policy" := "same-origin",
    "Cross-Origin-Resource-Policy" := "same-origin",
    "Referrer-Policy" := "strict-origin-when-cross-origin"
  ]

  /** Every header name the hook may write. */
  const MANAGED: set<string> := ALWAYS_SET.Keys + {"Strict-Transport-Security", "Cache-Control"}

  predicate OccursAt(s: string, part: string, i: int) {
    0 <= i <= |s| - |part| && s[i..i + |part|] == part
  }

  predicate Contains(s: string, part: string) {
    exists i :: 0 <= i <= |s| && OccursAt(s, part, i)
  }

  lemma ContainsMiddle(before: string, part: string, after: string)
    ensures Contains(before + part + after, part)
  {
    var s := before + part + after;
    assert s[|before|..|before| + |part|] == part;
    assert OccursAt(s, part, |before|);
  }

  lemma ContainsAfterPrefix(before: string, s: string, part: string)
    requires Contains(s, part)
    ensures Contains(before + s, part)
  {
    var i :| 0 <= i <= |s| && OccursAt(s, part, i);
    assert (before + s)[|before| + i..|before| + i + |part|] == s[i..i + |part|];
    assert OccursAt(before + s, part, |before| + i);
  }

  /** Every directive of the list appears in the joined policy. */
  lemma {:induction false} DirectiveInPolicy(directives: seq<string>, k: nat)
    requires k < |directives|
    ensures Contains(JoinPolicy(directives), directives[k])
  {
    if |directives| == 1 {
      ContainsMiddle([], directives[0], ";");
      assert [] + directives[0] + ";" == JoinPolicy(directives);
    } else if k == 0 {
      ContainsMiddle([], directives[0], "; " + JoinPolicy(directives[1..]));
      assert [] + directives[0] + ("; " + JoinPolicy(directives[1..])) == JoinPolicy(directives);
    } else {
      var rest := directives[1..];
      assert rest[k - 1] == directives[k];
      DirectiveInPolicy(rest, k - 1);
      ContainsAfterPrefix(directives[0] + "; ", JoinPolicy(rest), directives[k]);
      assert JoinPolicy(directives) == directives[0] + "; " + JoinPolicy(rest);
    }
  }

  /**
   * The header table after the hook: the fixed entries, HSTS unless the app
   * runs in debug mode, and a default Cache-Control only when none is set.
   */
  function Secured(headers: map<string, string>, debug: bool): (h: map<string, string>)
    ensures forall name :: name in ALWAYS_SET ==> name in h && h[name] == ALWAYS_SET[name]
    ensures "Cache-Control" in h
    ensures !debug ==> "Strict-Transport-Security" in h
  {
    var legacy := headers["X-Content-Type-Options" := "nosniff"]["X-Frame-Options" := "DENY"]
                         ["X-XSS-Protection" := "1; mode=block"];
    var withHsts := if !debug then legacy["Strict-Transport-Security" := HSTS_VALUE] else legacy;
    var modern := withHsts["Content-Security-Policy" := CSP_POLICY]["Permissions-Policy" := PERMISSIONS_POLICY]
                          ["Cross-Origin-Opener-Policy" := "same-origin"]
                          ["Cross-Origin-Resource-Policy" := "same-origin"]
                          ["Referrer-Policy" := "strict-origin-when-cross-origin"];
    if "Cache-Control" !in modern then modern["Cache-Control" := CACHE_CONTROL_DEFAULT] else modern
  }

  /** The response object whose `headers` the hook updates. */
  class Response {
    var headers: map<string, string>

    constructor (headers: map<string, string>)
      ensures this.headers == headers
    {
      this.headers := headers;
    }

    /** `add_security_headers`, for an app whose `debug` flag is given. */
    method AddSecurityHeaders(debug: bool)
      modifies this
      ensures headers == Secured(old(headers), debug)
    {
      headers := headers["X-Content-Type-Options" := "nosniff"];
      headers := headers["X-Frame-Options" := "DENY"];
      headers := headers["X-XSS-Protection" := "1; mode=block"];
      if !debug {
        headers := headers["Strict-Transport-Security" := HSTS_VALUE];
      }
      headers := headers["Content-Security-Policy" := CSP_POLICY];
      headers := headers["Permissions-Policy" := PERMISSIONS_POLICY];
      headers := headers["Cross-Origin-Opener-Policy" := "same-origin"];
      headers := headers["Cross-Origin-Resource-Policy" := "same-origin"];
      headers := headers["Referrer-Policy" := "strict-origin-when-cross-origin"];
      if "Cache-Control" !in headers {
        headers := headers["Cache-Control" := CACHE_CONTROL_DEFAULT];
      }
    }
  }

  /** After the hook the three legacy headers and the fixed modern ones hold their values. */
  lemma FixedHeadersPresent(headers: map<string, string>, debug: bool)
    ensures var h := Secured(headers, debug);
            && h["X-Content-Type-Options"] == "nosniff"
            && h["X-Frame-Options"] == "DENY"
            && h["X-XSS-Protection"] == "1; mode=block"
            && h["Content-Security-Policy"] == CSP_POLICY
            && h["Permissions-Policy"] == PERMISSIONS_POLICY
            && h["Cross-Origin-Opener-Policy"] == "same-origin"
            && h["Cross-Origin-Resource-Policy"] == "same-origin"
            && h["Referrer-Policy"] == "strict-origin-when-cross-origin"
  {
  }

  /** HSTS is written exactly when the app is not in debug mode; in debug mode it is left as it was. */
  lemma HstsOnlyOutsideDebug(headers: map<string, string>, debug: bool)
    ensures var h := Secured(headers, debug);
            && (!debug ==> "Strict-Transport-Security" in h && h["Strict-Transport-Security"] == HSTS_VALUE)
            && (debug ==> ("Strict-Transport-Security" in h <==> "Strict-Transport-Security" in headers))
            && (debug && "Strict-Transport-Security" in headers ==>
                  h["Strict-Transport-Security"] == headers["Strict-Transport-Security"])
  {
  }

  /** A Cache-Control already set is kept; otherwise the no-store default is added. */
  lemma CacheControlKeptOrDefaulted(headers: map<string, string>, debug: bool)
    ensures var h := Secured(headers, debug);
            && "Cache-Control" in h
            && h["Cache-Control"] == (if "Cache-Control" in headers then headers["Cache-Control"] else CACHE_CONTROL_DEFAULT)
  {
  }

  /** Headers the hook does not manage are neither added, removed nor changed. */
  lemma OtherHeadersUntouched(headers: map<string, string>, debug: bool, name: string)
    requires name !in MANAGED
    ensures name in Secured(headers, debug) <==> name in headers
    ensures name in headers ==> Secured(headers, debug)[name] == headers[name]
  {
  }

  /** Running the hook twice leaves the same table as running it once. */
  lemma SecuredIdempotent(headers: map<string, string>, debug: bool)
    ensures Secured(Secured(headers, debug), debug) == Secured(headers, debug)
  {
    var once := Secured(headers, debug);
    var twice := Secured(once, debug);
    assert twice.Keys == once.Keys;
    forall k | k in once
      ensures twice[k] == once[k]
    {
    }
  }

  /** The policy carries the four directives the clickjacking and injection defences rely on. */
  lemma PolicyHasRequiredDirectives()
    ensures Contains(CSP_POLICY, "default-src 'self'")
    ensures Contains(CSP_POLICY, "frame-ancestors 'none'")
    ensures Contains(CSP_POLICY, "base-uri 'self'")
    ensures Contains(CSP_POLICY, "form-action 'self'")
  {
    DirectiveInPolicy(CSP_DIRECTIVES, 0);
    DirectiveInPolicy(CSP_DIRECTIVES, 6);
    DirectiveInPolicy(CSP_DIRECTIVES, 7);
    DirectiveInPolicy(CSP_DIRECTIVES, 8);
  }
}
