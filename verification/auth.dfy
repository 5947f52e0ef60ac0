/** `apiKeyAuth`: the shared-secret check in front of every API router
    except `/api/auth`. `configured` is the `API_KEY` environment variable and
    `header` the request's `x-api-key` header, each `None` when unset. */
module ApiKeyAuth {
  import opened Wrappers
  import Text
  import QrClient

  const UnauthorizedMessage := "Unauthorized: Invalid or missing API key"

  /** `Pass` calls `next`; `Reject` answers 401 and does not. */
  datatype Decision = Pass | Reject {
    function Status(): Option<int> {
      if Reject? then Some(401) else None
    }

    /** The `message` of the 401 body. */
    function Message(): Option<string> {
      if Reject? then Some(UnauthorizedMessage) else None
    }
  }

  /** Authentication is off when no key, or only whitespace, is configured. */
  predicate Disabled(configured: Option<string>) {
    configured.None? || Text.Trim(configured.value) == ""
  }

  /** With authentication on, a request passes iff it carries a non-empty
      header exactly equal to the configured key, untrimmed. */
  function Check(configured: Option<string>, header: Option<string>): (d: Decision)
    ensures Disabled(configured) ==> d == Pass
    ensures !Disabled(configured) ==> (d == Pass <==> header == configured)
    ensures d == Reject <==> d.Status() == Some(401)
    ensures d == Reject <==> d.Message() == Some(UnauthorizedMessage)
  {
    if configured.None? || configured.value == "" || Text.Trim(configured.value) == "" then Pass
    else if header.None? || header.value == "" || header.value != configured.value then Reject
    else Pass
  }

  /** The configured key is trimmed only to decide whether authentication is
      on: a header equal to the trimmed key is still refused. */
  lemma KeyComparedUntrimmed(key: string)
    requires |key| > 0 && !Text.IsSpace(key[|key| - 1])
    ensures Check(Some(" " + key), Some(key)) == Reject
  {
    var padded := " " + key;
    assert padded[|padded| - 1] == key[|key| - 1];
    Text.TrimNotBlank(padded);
    assert padded != key;
  }

  /** The `x-api-key` header among a request's headers, if sent. */
  function KeyHeader(headers: QrClient.Headers): Option<string> {
    if "x-api-key" in headers then Some(headers["x-api-key"]) else None
  }

  /** The QR client sends its key as `Authorization: Bearer <key>` and never
      as `x-api-key`, so with a key configured every one of its requests is
      refused, whatever key the client was given. */
  lemma ClientKeyNeverAccepted(apiBaseUrl: Option<string>, apiKey: Option<string>, newKey: string, configured: string)
    requires !Disabled(Some(configured))
    ensures var c := QrClient.NewClient(apiBaseUrl, apiKey);
            && KeyHeader(c.headers).None?
            && Check(Some(configured), KeyHeader(c.headers)) == Reject
    ensures var c := QrClient.SetApiKey(QrClient.NewClient(apiBaseUrl, apiKey), newKey);
            && KeyHeader(c.headers).None?
            && Check(Some(configured), KeyHeader(c.headers)) == Reject
  {
    var c := QrClient.NewClient(apiBaseUrl, apiKey);
    assert "x-api-key" !in c.headers.Keys;
    var c' := QrClient.SetApiKey(c, newKey);
    assert c'.headers.Keys == c.headers.Keys + {"Authorization"};
    assert "x-api-key" !in c'.headers.Keys;
  }
}

/** The `/api/auth` router. It is mounted without `apiKeyAuth`. */
module AuthRoutes {
  import opened Wrappers
  import Js
  import ApiKeyAuth
  import Text

  datatype AuthReply =
    | LoggedIn(token: Option<string>, username: Js.Value)
    | InvalidCredentials
    | LoggedOut
    | Authenticated
    | Unauthorized
  {
    function Status(): int {
      if InvalidCredentials? || Unauthorized? then 401 else 200
    }
  }

  /** Strict equality of a body field with an environment variable: an unset
      variable equals only a missing field. */
  predicate SameAs(field: Js.Value, env: Option<string>) {
    if env.Some? then field == Js.Str(env.value) else field == Js.Undefined
  }

  /** POST `/login`: success iff both fields strictly equal the admin
      credentials; the token is the admin password and the username is
      echoed. */
  function Login(adminUser: Option<string>, adminPassword: Option<string>, username: Js.Value, password: Js.Value)
    : (r: AuthReply)
    ensures r.LoggedIn? <==> SameAs(username, adminUser) && SameAs(password, adminPassword)
    ensures r.LoggedIn? ==> r.token == adminPassword && r.username == username && r.Status() == 200
    ensures !r.LoggedIn? ==> r == InvalidCredentials && r.Status() == 401
  {
    if SameAs(username, adminUser) && SameAs(password, adminPassword) then LoggedIn(adminPassword, username)
    else InvalidCredentials
  }

  /** With neither credential configured, a body without both fields logs in,
      with no token. */
  lemma LoginWithNothingConfigured()
    ensures Login(None, None, Js.Undefined, Js.Undefined) == LoggedIn(None, Js.Undefined)
  {
  }

  /** POST `/logout` always succeeds. */
  function Logout(): (r: AuthReply)
    ensures r == LoggedOut && r.Status() == 200
  {
    LoggedOut
  }

  /** GET `/check` as mounted: it always answers `authenticated: true`, whatever
      key the request carries. */
  function CheckAsMounted(configured: Option<string>, header: Option<string>): (r: AuthReply)
    ensures r == Authenticated && r.Status() == 200
  {
    Authenticated
  }

  /** A request with no key at all is told it is authenticated although
      authentication is on. */
  lemma CheckAcceptsMissingKey(key: string)
    requires |key| > 0 && !Text.IsSpace(key[0])
    ensures ApiKeyAuth.Check(Some(key), None) == ApiKeyAuth.Reject
    ensures CheckAsMounted(Some(key), None) == Authenticated
  {
    assert Text.TrimStart(key) == key;
  }

  /** GET `/check` behind `apiKeyAuth`: authenticated exactly when the key
      check passes, 401 otherwise. */
  function CheckGuarded(configured: Option<string>, header: Option<string>): (r: AuthReply)
    ensures r == Authenticated <==> ApiKeyAuth.Check(configured, header) == ApiKeyAuth.Pass
    ensures r != Authenticated ==> r == Unauthorized && r.Status() == 401
  {
    if ApiKeyAuth.Check(configured, header) == ApiKeyAuth.Pass then Authenticated else Unauthorized
  }
}
