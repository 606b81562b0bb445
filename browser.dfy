/**
 * The pure half of the browser flow: recognising the two OAuth redirects
 * among navigated URLs, deciding whether the webview may follow a
 * navigation, and building the two authorization URLs.
 */
module Browser {
  import opened Wrappers
  import opened Strings
  import opened Urls
  import opened Errors
  import opened Env

  const LOGIN_HOST := "secure.runescape.com"
  const LAUNCHER_PATH := "/m=weblogin/launcher-redirect"
  const CONSENT_HOST := "localhost"
  const AUTH_PATH := "/oauth2/auth"
  /** Scopes are a space-separated list (section 3.3 of RFC 6749). */
  const AUTH_SCOPES := ["openid", "offline", "gamesso.token.create", "user.profile.read"]
  const AUTH_SCOPE := Join(AUTH_SCOPES, " ")
  const CONSENT_CLIENT_ID := "1fddee4e-b100-4f4e-b2b0-097f9088f9d2"

  /** The secrets of one authorization attempt: CSRF state and PKCE challenge and verifier. */
  datatype AuthOptions = AuthOptions(state: string, challenge: string, verifier: string)

  /** The two redirects the flow waits for. */
  datatype Redirect = Auth(code: string, state: string) | Consent(idToken: string, state: string)

  /** What the worker asks of the window: close it, or load a URL in the webview. */
  datatype CustomEvent = Close | LoadUrl(url: string)

  /** What the navigation handler hands to the worker. */
  datatype Message =
    | AuthRedirect(code: string, state: string, options: AuthOptions)
    | ConsentRedirect(idToken: string, state: string)

  /** Scheme, host and path of the launcher redirect, exactly. */
  predicate IsLauncherRedirect(u: Url)
  {
    u.scheme == "https" && u.host == Some(LOGIN_HOST) && u.path == LAUNCHER_PATH
  }

  /**
   * The first-hop redirect: the launcher redirect URL carrying both a code and
   * a state; each is the value of the first query pair with that name.
   */
  function TryParseAuthRedirect(u: Url): (r: Option<Redirect>)
    ensures !IsLauncherRedirect(u) ==> r.None?
    ensures r.Some? <==> IsLauncherRedirect(u) && Find(u.query, "code").Some? && Find(u.query, "state").Some?
    ensures r.Some? ==> r.value == Auth(Find(u.query, "code").value, Find(u.query, "state").value)
  {
    if u.scheme != "https" then None
    else if u.host != Some(LOGIN_HOST) then None
    else if u.path != LAUNCHER_PATH then None
    else
      var code :- Find(u.query, "code");
      var state :- Find(u.query, "state");
      Some(Auth(code, state))
  }

  /** How the consent matcher reads a URL: every '#' turned into '?' first, so fragment parameters read as a query. */
  function ConsentView(url: string): Option<Url>
  {
    Parse(Replace(url, '#', '?'))
  }

  /**
   * The second-hop redirect: any URL on host localhost carrying a state and an
   * id token, whether in its query or in its fragment.
   */
  function TryParseConsentRedirect(url: string): (r: Option<Redirect>)
    ensures r.Some? <==>
      && ConsentView(url).Some? && ConsentView(url).value.host == Some(CONSENT_HOST)
      && Find(ConsentView(url).value.query, "state").Some?
      && Find(ConsentView(url).value.query, "id_token").Some?
    ensures r.Some? ==> r.value == Consent(
      Find(ConsentView(url).value.query, "id_token").value,
      Find(ConsentView(url).value.query, "state").value)
  {
    var u :- ConsentView(url);
    if u.host != Some(CONSENT_HOST) then None
    else
      var state :- Find(u.query, "state");
      var idToken :- Find(u.query, "id_token");
      Some(Consent(idToken, state))
  }

  /** Classifies a navigated URL: unparsable is no redirect; the auth matcher is tried before the consent one. */
  function ParseRedirect(url: string): (r: Option<Redirect>)
    ensures Parse(url).None? ==> r.None?
    ensures Parse(url).Some? && TryParseAuthRedirect(Parse(url).value).Some? ==> r == TryParseAuthRedirect(Parse(url).value)
    ensures Parse(url).Some? && TryParseAuthRedirect(Parse(url).value).None? ==> r == TryParseConsentRedirect(url)
  {
    var parsed :- Parse(url);
    if TryParseAuthRedirect(parsed).Some? then TryParseAuthRedirect(parsed)
    else TryParseConsentRedirect(url)
  }

  /** Moving the consent parameters from the query into the fragment does not change what the consent matcher finds. */
  lemma ConsentFragmentIsQuery(a: string, b: string)
    ensures TryParseConsentRedirect(a + "#" + b) == TryParseConsentRedirect(a + "?" + b)
  {
    ReplaceAppend(a + "#", b, '#', '?');
    ReplaceAppend(a, "#", '#', '?');
    ReplaceAppend(a + "?", b, '#', '?');
    ReplaceAppend(a, "?", '#', '?');
    assert Replace("#", '#', '?') == "?" == Replace("?", '#', '?');
  }

  /** The text of a launcher redirect carrying a code and a state is recognised as that redirect. */
  lemma RecognisesAuthRedirect(u: Url)
    requires WellFormed(u) && IsLauncherRedirect(u)
    requires Find(u.query, "code").Some? && Find(u.query, "state").Some?
    ensures ParseRedirect(Serialize(u)) == Some(Auth(Find(u.query, "code").value, Find(u.query, "state").value))
  {
    ParseSerialize(u);
  }

  /**
   * A localhost URL whose parameters come in the fragment, as the consent hop
   * returns them (the hybrid flow of section 3.3 of OpenID Connect Core 1.0),
   * is recognised exactly when it carries a state and an id token.
   */
  lemma RecognisesConsentRedirect(u: Url, params: seq<Pair>)
    requires WellFormed(u) && u.host == Some(CONSENT_HOST) && u.query == []
    requires SafeQuery(params) && params != [] && u.fragment == Some(EncodeQuery(params))
    ensures ParseRedirect(Serialize(u)) ==
      if Find(params, "state").Some? && Find(params, "id_token").Some?
      then Some(Consent(Find(params, "id_token").value, Find(params, "state").value))
      else None
  {
    var asQuery := u.(query := params, fragment := None);
    assert ConsentView(Serialize(u)) == Some(asQuery) by {
      FragmentAsQuery(u, params);
      ParseSerialize(asQuery);
    }
    assert Parse(Serialize(u)) == Some(u) by {
      ParseSerialize(u);
    }
    assert TryParseAuthRedirect(u).None?;
  }

  /** Turning '#' into '?' in a URL whose parameters sit in the fragment yields the URL carrying them as its query. */
  lemma FragmentAsQuery(u: Url, params: seq<Pair>)
    requires WellFormed(u) && u.query == []
    requires SafeQuery(params) && params != [] && u.fragment == Some(EncodeQuery(params))
    ensures Replace(Serialize(u), '#', '?') == Serialize(u.(query := params, fragment := None))
  {
    var front := u.scheme + ":" + Hierarchy(u);
    var e := EncodeQuery(params);
    assert '#' !in front by {
      forall k | 0 <= k < |u.scheme| ensures u.scheme[k] != '#' {
        assert IsSchemeChar(u.scheme[k]);
      }
    }
    assert '#' !in e by {
      EncodeQueryLacksHash(params);
    }
    calc {
      Replace(Serialize(u), '#', '?');
    == { assert Serialize(u) == front + "#" + e; }
      Replace(front + "#" + e, '#', '?');
    == { ReplaceMark(front, e, '#', '?'); }
      front + "?" + e;
    == { assert "?" + e == QueryPart(params); }
      Serialize(u.(query := params, fragment := None));
    }
  }

  /** The navigation handler's verdict and the message it sends. */
  datatype Navigation = Navigation(proceed: bool, sent: Option<Message>)

  /**
   * Decides a navigation: a recognised redirect is handed to the worker and
   * the webview does not follow it; anything else is followed.
   */
  function NavigationHandler(url: string, options: AuthOptions): (n: Navigation)
    ensures n.proceed <==> ParseRedirect(url).None?
    ensures n.sent.Some? <==> !n.proceed
    ensures n.sent.Some? && n.sent.value.AuthRedirect? ==>
      n.sent.value.options == options && ParseRedirect(url) == Some(Auth(n.sent.value.code, n.sent.value.state))
    ensures n.sent.Some? && n.sent.value.ConsentRedirect? ==>
      ParseRedirect(url) == Some(Consent(n.sent.value.idToken, n.sent.value.state))
  {
    match ParseRedirect(url)
    case Some(Auth(code, state)) => Navigation(false, Some(AuthRedirect(code, state, options)))
    case Some(Consent(idToken, state)) => Navigation(false, Some(ConsentRedirect(idToken, state)))
    case None => Navigation(true, None)
  }

  /** The origin with its path replaced by the authorization endpoint's, query and fragment dropped. */
  function AuthorizeEndpoint(origin: string): (r: Result<Url, AuthError>)
    ensures r.Success? <==> Parse(origin).Some? && Parse(origin).value.host.Some?
    ensures Parse(origin).None? ==> r == Failure(InvalidUrl(ParseFailed))
    ensures r.Failure? ==> r.error.InvalidUrl?
    ensures r.Success? ==> r.value == Parse(origin).value.(path := AUTH_PATH, query := [], fragment := None)
    ensures r.Success? ==> WellFormed(r.value)
  {
    match Parse(origin)
    case None => Failure(InvalidUrl(ParseFailed))
    case Some(base) =>
      if base.host.None? then Failure(InvalidUrl(CannotBeABase))
      else
        EndpointWellFormed(base);
        Success(base.(path := AUTH_PATH, query := [], fragment := None))
  }

  lemma EndpointWellFormed(base: Url)
    requires ValidScheme(base.scheme) && NoUpper(base.scheme)
    requires base.host.Some? && ValidHost(base.host.value)
    ensures WellFormed(base.(path := AUTH_PATH, query := [], fragment := None))
  {
    assert ValidPath(AUTH_PATH);
  }

  /** An endpoint given a query that needs no encoding reads back as itself. */
  lemma EndpointRoundTrip(endpoint: Url, q: seq<Pair>)
    requires WellFormed(endpoint)
    ensures SafeQuery(q) ==> Parse(Serialize(endpoint.(query := q))) == Some(endpoint.(query := q))
  {
    if SafeQuery(q) {
      ParseSerialize(endpoint.(query := q));
    }
  }

  /** The first-hop parameter names, in the order they are appended. */
  const AUTH_PARAMS := [
    "flow", "response_type", "client_id", "redirect_uri", "code_challenge", "code_challenge_method",
    "prompt", "scope", "state"]

  function AuthValues(env: Config, options: AuthOptions): seq<string>
  {
    ["launcher", "code", env.clientId, env.redirect, options.challenge, "S256", "login", AUTH_SCOPE, options.state]
  }

  /** The first-hop query: authorization code flow with PKCE (section 4.3 of RFC 7636), the launcher flow and the attempt's state last. */
  function AuthQuery(env: Config, options: AuthOptions): (q: seq<Pair>)
    ensures |q| == |AUTH_PARAMS| && forall k :: 0 <= k < |q| ==> q[k].0 == AUTH_PARAMS[k]
    ensures q[|q| - 1] == ("state", options.state)
  {
    Zip(AUTH_PARAMS, AuthValues(env, options))
  }

  /** Each first-hop parameter is found under its name. */
  lemma AuthQueryLookups(env: Config, options: AuthOptions)
    ensures Find(AuthQuery(env, options), "flow") == Some("launcher")
    ensures Find(AuthQuery(env, options), "response_type") == Some("code")
    ensures Find(AuthQuery(env, options), "client_id") == Some(env.clientId)
    ensures Find(AuthQuery(env, options), "redirect_uri") == Some(env.redirect)
    ensures Find(AuthQuery(env, options), "code_challenge") == Some(options.challenge)
    ensures Find(AuthQuery(env, options), "code_challenge_method") == Some("S256")
    ensures Find(AuthQuery(env, options), "prompt") == Some("login")
    ensures Find(AuthQuery(env, options), "scope") == Some(AUTH_SCOPE)
    ensures Find(AuthQuery(env, options), "state") == Some(options.state)
  {
    var q := AuthQuery(env, options);
    AuthParamsDistinct();
    FindDistinct(q, 0);
    FindDistinct(q, 1);
    FindDistinct(q, 2);
    FindDistinct(q, 3);
    FindDistinct(q, 4);
    FindDistinct(q, 5);
    FindDistinct(q, 6);
    FindDistinct(q, 7);
    FindDistinct(q, 8);
  }

  lemma AuthParamsDistinct()
    ensures forall i, j :: 0 <= i < j < |AUTH_PARAMS| ==> AUTH_PARAMS[i] != AUTH_PARAMS[j]
  {
  }

  /** The consent-hop parameter names: an id token hint, a fresh nonce and state, and the hybrid response type. */
  const CONSENT_PARAMS := ["id_token_hint", "nonce", "prompt", "response_type", "client_id", "redirect_uri", "scope", "state"]

  /** The consent-hop values that do not depend on the attempt. */
  const CONSENT_FIXED := ["consent", "id_token code", CONSENT_CLIENT_ID, "http://localhost", "openid offline"]

  function ConsentValues(idToken: string, state: string, nonce: string): seq<string>
  {
    [idToken, nonce] + CONSENT_FIXED + [state]
  }

  function ConsentQuery(idToken: string, state: string, nonce: string): (q: seq<Pair>)
    ensures |q| == |CONSENT_PARAMS| && forall k :: 0 <= k < |q| ==> q[k].0 == CONSENT_PARAMS[k]
    ensures q[0] == ("id_token_hint", idToken) && q[|q| - 1] == ("state", state)
  {
    Zip(CONSENT_PARAMS, ConsentValues(idToken, state, nonce))
  }

  /** Each consent-hop parameter is found under its name. */
  lemma ConsentQueryLookups(idToken: string, state: string, nonce: string)
    ensures Find(ConsentQuery(idToken, state, nonce), "id_token_hint") == Some(idToken)
    ensures Find(ConsentQuery(idToken, state, nonce), "nonce") == Some(nonce)
    ensures Find(ConsentQuery(idToken, state, nonce), "prompt") == Some("consent")
    ensures Find(ConsentQuery(idToken, state, nonce), "response_type") == Some("id_token code")
    ensures Find(ConsentQuery(idToken, state, nonce), "client_id") == Some(CONSENT_CLIENT_ID)
    ensures Find(ConsentQuery(idToken, state, nonce), "redirect_uri") == Some("http://localhost")
    ensures Find(ConsentQuery(idToken, state, nonce), "scope") == Some("openid offline")
    ensures Find(ConsentQuery(idToken, state, nonce), "state") == Some(state)
  {
    var q := ConsentQuery(idToken, state, nonce);
    ConsentParamsDistinct();
    FindDistinct(q, 0);
    FindDistinct(q, 1);
    FindDistinct(q, 2);
    FindDistinct(q, 3);
    FindDistinct(q, 4);
    FindDistinct(q, 5);
    FindDistinct(q, 6);
    FindDistinct(q, 7);
  }

  lemma ConsentParamsDistinct()
    ensures forall i, j :: 0 <= i < j < |CONSENT_PARAMS| ==> CONSENT_PARAMS[i] != CONSENT_PARAMS[j]
  {
  }

  lemma ScopeSafe()
    ensures SafeValue(AUTH_SCOPE)
  {
    ScopesSafe();
    JoinLacks(AUTH_SCOPES, " ", '&');
    JoinLacks(AUTH_SCOPES, " ", '#');
  }

  lemma ScopesSafe()
    ensures forall k :: 0 <= k < |AUTH_SCOPES| ==> SafeValue(AUTH_SCOPES[k])
  {
  }

  lemma ConsentFixedSafe()
    ensures forall k :: 0 <= k < |CONSENT_FIXED| ==> SafeValue(CONSENT_FIXED[k])
  {
  }

  lemma AuthParamsSafe()
    ensures forall k :: 0 <= k < |AUTH_PARAMS| ==> SafeName(AUTH_PARAMS[k])
  {
  }

  lemma ConsentParamsSafe()
    ensures forall k :: 0 <= k < |CONSENT_PARAMS| ==> SafeName(CONSENT_PARAMS[k])
  {
  }

  /** The first-hop query needs no encoding when the client id, redirect URI, challenge and state need none. */
  lemma AuthQuerySafe(env: Config, options: AuthOptions)
    requires SafeValue(env.clientId) && SafeValue(env.redirect)
    requires SafeValue(options.challenge) && SafeValue(options.state)
    ensures SafeQuery(AuthQuery(env, options))
  {
    ScopeSafe();
    AuthParamsSafe();
    var vs := AuthValues(env, options);
    forall k | 0 <= k < |vs| ensures SafeValue(vs[k]) {
    }
    ZipSafe(AUTH_PARAMS, vs);
  }

  /** The consent query needs no encoding when the id token, state and nonce need none. */
  lemma ConsentQuerySafe(idToken: string, state: string, nonce: string)
    requires SafeValue(idToken) && SafeValue(state) && SafeValue(nonce)
    ensures SafeQuery(ConsentQuery(idToken, state, nonce))
  {
    ConsentParamsSafe();
    ConsentFixedSafe();
    var vs := ConsentValues(idToken, state, nonce);
    forall k | 0 <= k < |vs| ensures SafeValue(vs[k]) {
      if 2 <= k < 7 {
        assert vs[k] == CONSENT_FIXED[k - 2];
      }
    }
    ZipSafe(CONSENT_PARAMS, vs);
  }

  /** The first-hop query as the URL builder appends it, pair by pair. */
  method AppendAuthPairs(env: Config, options: AuthOptions) returns (query: seq<Pair>)
    ensures query == AuthQuery(env, options)
  {
    query := [];
    query := query + [("flow", "launcher")];
    query := query + [("response_type", "code")];
    query := query + [("client_id", env.clientId)];
    query := query + [("redirect_uri", env.redirect)];
    query := query + [("code_challenge", options.challenge)];
    query := query + [("code_challenge_method", "S256")];
    query := query + [("prompt", "login")];
    query := query + [("scope", AUTH_SCOPE)];
    query := query + [("state", options.state)];
    ghost var expected := AuthQuery(env, options);
    assert |query| == |expected|;
    forall k | 0 <= k < |query| ensures query[k] == expected[k] {
    }
  }

  /** The consent-hop query as the URL builder appends it, pair by pair. */
  method AppendConsentPairs(idToken: string, state: string, nonce: string) returns (query: seq<Pair>)
    ensures query == ConsentQuery(idToken, state, nonce)
  {
    query := [];
    query := query + [("id_token_hint", idToken)];
    query := query + [("nonce", nonce)];
    query := query + [("prompt", "consent")];
    query := query + [("response_type", "id_token code")];
    query := query + [("client_id", CONSENT_CLIENT_ID)];
    query := query + [("redirect_uri", "http://localhost")];
    query := query + [("scope", "openid offline")];
    query := query + [("state", state)];
    ghost var expected := ConsentQuery(idToken, state, nonce);
    assert |query| == |expected|;
    forall k | 0 <= k < |query| ensures query[k] == expected[k] {
    }
  }

  /** The first-hop URL; when its values need no encoding, reading it back gives the endpoint with exactly that query. */
  function CreateAuthUrl(env: Config, options: AuthOptions): (r: Result<string, AuthError>)
    ensures r.Success? <==> AuthorizeEndpoint(env.origin).Success?
    ensures r.Failure? ==> r.error == AuthorizeEndpoint(env.origin).error
    ensures r.Success? && SafeQuery(AuthQuery(env, options)) ==>
      Parse(r.value) == Some(AuthorizeEndpoint(env.origin).value.(query := AuthQuery(env, options)))
  {
    var endpoint :- AuthorizeEndpoint(env.origin);
    var u := endpoint.(query := AuthQuery(env, options));
    EndpointRoundTrip(endpoint, u.query);
    Success(Serialize(u))
  }

  /**
   * The consent-hop URL and the fresh state it carries. When the id token,
   * state and nonce need no encoding, the URL read back carries exactly the
   * consent query, so its state is the one returned.
   */
  function CreateConsentUrl(env: Config, idToken: string, state: string, nonce: string): (r: Result<(string, string), AuthError>)
    ensures r.Success? <==> AuthorizeEndpoint(env.origin).Success?
    ensures r.Failure? ==> r.error == AuthorizeEndpoint(env.origin).error
    ensures r.Success? ==> r.value.1 == state
    ensures r.Success? && SafeValue(idToken) && SafeValue(state) && SafeValue(nonce) ==>
      && Parse(r.value.0) == Some(AuthorizeEndpoint(env.origin).value.(query := ConsentQuery(idToken, state, nonce)))
      && Find(Parse(r.value.0).value.query, "state") == Some(state)
      && Find(Parse(r.value.0).value.query, "id_token_hint") == Some(idToken)
  {
    var endpoint :- AuthorizeEndpoint(env.origin);
    var u := endpoint.(query := ConsentQuery(idToken, state, nonce));
    if SafeValue(idToken) && SafeValue(state) && SafeValue(nonce) then
      ConsentQuerySafe(idToken, state, nonce);
      ConsentQueryLookups(idToken, state, nonce);
      EndpointRoundTrip(endpoint, u.query);
      Success((Serialize(u), state))
    else
    Success((Serialize(u), state))
  }

  /** The first-hop URL as the source builds it: the endpoint, then its query appended pair by pair. */
  method BuildAuthUrl(env: Config, options: AuthOptions) returns (r: Result<string, AuthError>)
    ensures r == CreateAuthUrl(env, options)
  {
    var endpoint :- AuthorizeEndpoint(env.origin);
    var query := AppendAuthPairs(env, options);
    r := Success(Serialize(endpoint.(query := query)));
  }

  /** The consent-hop URL and its state as the source builds them. */
  method BuildConsentUrl(env: Config, idToken: string, state: string, nonce: string)
    returns (r: Result<(string, string), AuthError>)
    ensures r == CreateConsentUrl(env, idToken, state, nonce)
  {
    var endpoint :- AuthorizeEndpoint(env.origin);
    var query := AppendConsentPairs(idToken, state, nonce);
    r := Success((Serialize(endpoint.(query := query)), state));
  }
}
