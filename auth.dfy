/**
 * API-key authentication (middleware/auth.py): where the configured key
 * comes from, and the per-request decision of the `before_request` hook.
 */
module Auth {
  import opened Values

  /** Paths served without credentials when they match exactly. */
  const PUBLIC_ENDPOINTS: set<string> :=
    {"/health", "/ready", "/metrics", "/ui/login", "/apidocs", "/apispec.json"}

  /** Path prefixes served without credentials. */
  const PUBLIC_PREFIXES: seq<string> := ["/flasgger_static/"]

  const UNAUTHORIZED_MESSAGE: string := "Valid API key required in X-API-Key header"

  predicate StartsWith(s: string, prefix: string) {
    |prefix| <= |s| && s[..|prefix|] == prefix
  }

  /** What the hook does with a request. */
  datatype Decision =
    | Allow                                     // the hook returns None: the view runs
    | RedirectToLogin                           // redirect to the dashboard login page
    | Unauthorized(status: int, error: string, message: string)
    | ComparisonRaises                          // `hmac.compare_digest` raises TypeError

  /**
   * `init_auth`: an override dictionary that holds `API_KEY` wins, even when
   * its value is None; otherwise the `API_KEY` environment variable.
   */
  function ResolveApiKey(configOverride: Option<map<string, Option<string>>>, env: Option<string>): (key: Option<string>)
    ensures configOverride.Some? && "API_KEY" in configOverride.value ==> key == configOverride.value["API_KEY"]
    ensures configOverride.None? || "API_KEY" !in configOverride.value ==> key == env
  {
    if configOverride.Some? && "API_KEY" in configOverride.value then configOverride.value["API_KEY"] else env
  }

  /** Authentication is on only for a non-empty key. */
  predicate AuthEnabled(apiKey: Option<string>) {
    apiKey.Some? && apiKey.value != ""
  }

  predicate IsPublic(path: string) {
    path in PUBLIC_ENDPOINTS || exists i :: 0 <= i < |PUBLIC_PREFIXES| && StartsWith(path, PUBLIC_PREFIXES[i])
  }

  predicate IsAscii(s: string) {
    forall i :: 0 <= i < |s| ==> s[i] as int < 128
  }

  /** `hmac.compare_digest` on two strings: equality, but only ASCII strings are accepted. */
  function CompareDigest(a: string, b: string): (r: Option<bool>)
    ensures r.None? <==> !IsAscii(a) || !IsAscii(b)
    ensures r.Some? ==> (r.value <==> a == b)
  {
    if IsAscii(a) && IsAscii(b) then Some(a == b) else None
  }

  predicate KeyMatches(provided: Option<string>, apiKey: string) {
    provided.Some? && provided.value != "" && CompareDigest(provided.value, apiKey) == Some(true)
  }

  predicate ComparisonFails(provided: Option<string>, apiKey: string) {
    provided.Some? && provided.value != "" && CompareDigest(provided.value, apiKey).None?
  }

  /** Where an unauthenticated browser is sent to the login page instead of getting 401. */
  predicate IsUiEntry(path: string) {
    path == "/" || StartsWith(path, "/ui/")
  }

  /**
   * The `authenticate` hook for a request to `path`, with the session's
   * `authenticated` flag and the `X-API-Key` header (None when absent).
   */
  function Authenticate(apiKey: Option<string>, path: string, sessionAuthenticated: bool, providedKey: Option<string>)
    : (d: Decision)
    ensures !AuthEnabled(apiKey) ==> d == Allow
    ensures AuthEnabled(apiKey) ==>
      && (d == Allow <==> IsPublic(path) || sessionAuthenticated || KeyMatches(providedKey, apiKey.value))
      && (d == ComparisonRaises <==>
            !IsPublic(path) && !sessionAuthenticated && ComparisonFails(providedKey, apiKey.value))
      && (d == RedirectToLogin <==>
            !IsPublic(path) && !sessionAuthenticated && !KeyMatches(providedKey, apiKey.value)
            && !ComparisonFails(providedKey, apiKey.value) && IsUiEntry(path))
      && (d.Unauthorized? ==> d == Unauthorized(401, "Unauthorized", UNAUTHORIZED_MESSAGE))
  {
    if !AuthEnabled(apiKey) then Allow
    else if path in PUBLIC_ENDPOINTS then Allow
    else if StartsWith(path, PUBLIC_PREFIXES[0]) then Allow
    else if sessionAuthenticated then Allow
    else if providedKey.Some? && providedKey.value != "" && CompareDigest(providedKey.value, apiKey.value).None? then
      ComparisonRaises
    else if providedKey.Some? && providedKey.value != "" && CompareDigest(providedKey.value, apiKey.value) == Some(true) then
      Allow
    else if path == "/" then RedirectToLogin
    else if StartsWith(path, "/ui/") then RedirectToLogin
    else Unauthorized(401, "Unauthorized", UNAUTHORIZED_MESSAGE)
  }

  /**
   * With a key configured, a request with neither session nor the right key never gets through;
   * when both keys are ASCII and the path is no UI entry, it gets 401.
   */
  lemma WrongKeyNeverAllowed(apiKey: string, path: string, provided: string)
    requires apiKey != "" && provided != apiKey
    requires !IsPublic(path)
    ensures Authenticate(Some(apiKey), path, false, Some(provided)) != Allow
    ensures Authenticate(Some(apiKey), path, false, None) != Allow
    ensures IsAscii(apiKey) && IsAscii(provided) && !IsUiEntry(path) ==>
      Authenticate(Some(apiKey), path, false, Some(provided)) == Unauthorized(401, "Unauthorized", UNAUTHORIZED_MESSAGE)
  {
  }

  /** Every configured path prefix lets its whole subtree through. */
  lemma StaticAssetsArePublic(apiKey: Option<string>, rest: string, session: bool, provided: Option<string>)
    ensures Authenticate(apiKey, "/flasgger_static/" + rest, session, provided) == Allow
  {
    var path := "/flasgger_static/" + rest;
    assert StartsWith(path, PUBLIC_PREFIXES[0]);
  }
}
