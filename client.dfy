/**
 * The session store: one secret in the platform keyring, addressed by a fixed
 * service and user, holding the session serialised as JSON.
 */
module SessionStore {
  import opened Wrappers
  import opened Errors

  datatype Session = Session(sessionId: string)

  /** The JSON text of an object with one string field (string escaping is not modelled). */
  function JsonObject(field: string, value: string): string
  {
    "{\"" + field + "\":\"" + value + "\"}"
  }

  /** Reads the value of the one string field of a JSON object, or fails with the text. */
  function JsonField(field: string, text: string): (r: Result<string, string>)
    ensures r.Success? ==> JsonObject(field, r.value) == text
  {
    var open, close := "{\"" + field + "\":\"", "\"}";
    if |text| >= |open| + |close| && text[..|open|] == open && text[|text| - |close|..] == close
    then
      var v := text[|open|..|text| - |close|];
      assert text == text[..|open|] + v + text[|text| - |close|..];
      Success(v)
    else Failure(text)
  }

  lemma JsonRoundTrip(field: string, value: string)
    ensures JsonField(field, JsonObject(field, value)) == Success(value)
  {
    var open, close := "{\"" + field + "\":\"", "\"}";
    var text := JsonObject(field, value);
    assert text == open + value + close;
    assert text[..|open|] == open;
    assert text[|text| - |close|..] == close;
    assert text[|open|..|text| - |close|] == value;
  }

  /** The session's JSON text: an object whose `sessionId` field reads back the id. */
  function EncodeSession(s: Session): (text: string)
    ensures JsonField("sessionId", text) == Success(s.sessionId)
  {
    JsonRoundTrip("sessionId", s.sessionId);
    JsonObject("sessionId", s.sessionId)
  }

  /** Decodes a stored session; text that is not a session object is a JSON error. */
  function DecodeSession(text: string): (r: Result<Session, AuthError>)
    ensures r.Success? ==> EncodeSession(r.value) == text
    ensures r.Failure? ==> r.error == JsonError(text)
  {
    match JsonField("sessionId", text)
    case Success(v) => Success(Session(v))
    case Failure(_) => Failure(JsonError(text))
  }

  /** A stored session decodes to itself. */
  lemma SessionRoundTrip(s: Session)
    ensures DecodeSession(EncodeSession(s)) == Success(s)
  {
    JsonRoundTrip("sessionId", s.sessionId);
  }

  // ---------------------------------------------------------------- keyring

  /** A keyring entry's address: a service name and a user name. */
  datatype EntryKey = EntryKey(service: string, user: string)

  type Secrets = map<EntryKey, string>

  /**
   * The failures the platform reports for one store operation: `open` for
   * creating the entry handle, `access` for reading, writing or deleting it.
   */
  datatype Faults = Faults(open: Option<Fault>, access: Option<Fault>)

  /**
   * A failure the platform reports on its own. A missing entry is not one of
   * them: the keyring reports it exactly when the entry is absent.
   */
  type Fault = k: KeyringFailure | !k.NoEntry? witness PlatformFailure("")

  const NoFaults := Faults(None, None)

  /** The outcome of a keyring write and the secrets afterwards. */
  datatype Write<E> = Write(result: Result<(), E>, secrets: Secrets)

  function SetPasswordEffect(m: Secrets, key: EntryKey, secret: string, fault: Option<Fault>): Write<KeyringFailure>
  {
    if fault.Some? then Write(Failure(fault.value), m) else Write(Success(()), m[key := secret])
  }

  function GetPasswordResult(m: Secrets, key: EntryKey, fault: Option<Fault>): Result<string, KeyringFailure>
  {
    if fault.Some? then Failure(fault.value) else if key in m then Success(m[key]) else Failure(NoEntry)
  }

  function DeleteCredentialEffect(m: Secrets, key: EntryKey, fault: Option<Fault>): Write<KeyringFailure>
  {
    if fault.Some? then Write(Failure(fault.value), m)
    else if key in m then Write(Success(()), m - {key})
    else Write(Failure(NoEntry), m)
  }

  /** The platform keyring: a map from entry addresses to secrets, changed in place. */
  class Keyring {
    var entries: Secrets

    constructor (initial: Secrets)
      ensures entries == initial
    {
      entries := initial;
    }

    method SetPassword(key: EntryKey, secret: string, fault: Option<Fault>) returns (r: Result<(), KeyringFailure>)
      modifies this
      ensures Write(r, entries) == SetPasswordEffect(old(entries), key, secret, fault)
    {
      if fault.Some? {
        r := Failure(fault.value);
      } else {
        entries := entries[key := secret];
        r := Success(());
      }
    }

    method GetPassword(key: EntryKey, fault: Option<Fault>) returns (r: Result<string, KeyringFailure>)
      ensures r == GetPasswordResult(entries, key, fault)
    {
      if fault.Some? {
        r := Failure(fault.value);
      } else if key in entries {
        r := Success(entries[key]);
      } else {
        r := Failure(NoEntry);
      }
    }

    method DeleteCredential(key: EntryKey, fault: Option<Fault>) returns (r: Result<(), KeyringFailure>)
      modifies this
      ensures Write(r, entries) == DeleteCredentialEffect(old(entries), key, fault)
    {
      if fault.Some? {
        r := Failure(fault.value);
      } else if key in entries {
        entries := entries - {key};
        r := Success(());
      } else {
        r := Failure(NoEntry);
      }
    }
  }

  // ---------------------------------------------------------------- the store

  const SERVICE := "auth-rs"
  const USER := "session"

  /** The one entry every store operation addresses. */
  const SESSION_KEY := EntryKey(SERVICE, USER)

  /** Opens the session entry; a platform refusal is mapped through the keyring error mapping. */
  function GetEntry(f: Faults): (r: Result<EntryKey, AuthError>)
    ensures r.Success? <==> f.open.None?
    ensures r.Success? ==> r.value == EntryKey("auth-rs", "session")
    ensures r.Failure? ==> r.error == FromKeyring(f.open.value)
  {
    if f.open.Some? then Failure(FromKeyring(f.open.value)) else Success(SESSION_KEY)
  }

  function StoreEffect(m: Secrets, s: Session, f: Faults): (w: Write<AuthError>)
    ensures w.result.Success? <==> f == NoFaults
    ensures w.result.Success? ==> w.secrets == m[SESSION_KEY := EncodeSession(s)]
    ensures w.result.Failure? ==> w.secrets == m
  {
    match GetEntry(f)
    case Failure(e) => Write(Failure(e), m)
    case Success(key) =>
      var w := SetPasswordEffect(m, key, EncodeSession(s), f.access);
      Write(if w.result.Success? then Success(()) else Failure(FromKeyring(w.result.error)), w.secrets)
  }

  /**
   * The stored session: none when the entry is missing, an error for any other
   * keyring failure or for a secret that does not decode.
   */
  function LoadResult(m: Secrets, f: Faults): (r: Result<Option<Session>, AuthError>)
    ensures f == NoFaults ==> (r == Success(None) <==> SESSION_KEY !in m)
    ensures r.Success? ==> f == NoFaults
    ensures r != Failure(SessionNotFound)
    ensures r.Failure? ==> r.error.JsonError? || FromKeyringVariant(r.error)
    ensures r.Success? && r.value.Some? ==> SESSION_KEY in m && m[SESSION_KEY] == EncodeSession(r.value.value)
  {
    match GetEntry(f)
    case Failure(e) => Failure(e)
    case Success(key) =>
      match GetPasswordResult(m, key, f.access)
      case Success(json) =>
        (match DecodeSession(json)
         case Success(s) => Success(Some(s))
         case Failure(e) => Failure(e))
      case Failure(NoEntry) => Success(None)
      case Failure(e) => Failure(FromKeyring(e))
  }

  /** Removes the session entry; a missing entry is already cleared. */
  function ClearEffect(m: Secrets, f: Faults): (w: Write<AuthError>)
    ensures w.result.Success? <==> f == NoFaults
    ensures w.result.Success? ==> w.secrets == m - {SESSION_KEY}
    ensures w.result.Failure? ==> w.secrets == m
  {
    match GetEntry(f)
    case Failure(e) => Write(Failure(e), m)
    case Success(key) =>
      var w := DeleteCredentialEffect(m, key, f.access);
      match w.result
      case Success(_) => Write(Success(()), w.secrets)
      case Failure(NoEntry) => Write(Success(()), w.secrets)
      case Failure(e) => Write(Failure(FromKeyring(e)), w.secrets)
  }

  /** A session that was stored is loaded back, whatever else the keyring holds. */
  lemma StoreThenLoad(m: Secrets, s: Session, f: Faults)
    requires StoreEffect(m, s, f).result.Success?
    ensures LoadResult(StoreEffect(m, s, f).secrets, NoFaults) == Success(Some(s))
  {
    SessionRoundTrip(s);
  }

  /** Only the session entry is ever written or removed. */
  lemma OtherEntriesUntouched(m: Secrets, s: Session, f: Faults, k: EntryKey)
    requires k != SESSION_KEY
    ensures k in StoreEffect(m, s, f).secrets <==> k in m
    ensures k in ClearEffect(m, f).secrets <==> k in m
    ensures k in m ==> StoreEffect(m, s, f).secrets[k] == m[k] && ClearEffect(m, f).secrets[k] == m[k]
  {
  }

  /** Clearing twice leaves the keyring as clearing once does, and both succeed. */
  lemma ClearIdempotent(m: Secrets)
    ensures ClearEffect(ClearEffect(m, NoFaults).secrets, NoFaults) == ClearEffect(m, NoFaults)
  {
    var once := ClearEffect(m, NoFaults).secrets;
    assert once - {SESSION_KEY} == once;
  }

  /** After a successful clear nothing is loaded. */
  lemma ClearThenLoad(m: Secrets, f: Faults)
    requires ClearEffect(m, f).result.Success?
    ensures LoadResult(ClearEffect(m, f).secrets, NoFaults) == Success(None)
  {
  }

  method Store(kr: Keyring, s: Session, f: Faults) returns (r: Result<(), AuthError>)
    modifies kr
    ensures Write(r, kr.entries) == StoreEffect(old(kr.entries), s, f)
  {
    var key :- GetEntry(f);
    var w := kr.SetPassword(key, EncodeSession(s), f.access);
    r := if w.Success? then Success(()) else Failure(FromKeyring(w.error));
  }

  method Load(kr: Keyring, f: Faults) returns (r: Result<Option<Session>, AuthError>)
    ensures r == LoadResult(kr.entries, f)
  {
    var key :- GetEntry(f);
    var got := kr.GetPassword(key, f.access);
    match got
    case Success(json) =>
      var s :- DecodeSession(json);
      r := Success(Some(s));
    case Failure(NoEntry) =>
      r := Success(None);
    case Failure(e) =>
      r := Failure(FromKeyring(e));
  }

  method Clear(kr: Keyring, f: Faults) returns (r: Result<(), AuthError>)
    modifies kr
    ensures Write(r, kr.entries) == ClearEffect(old(kr.entries), f)
  {
    var key :- GetEntry(f);
    var w := kr.DeleteCredential(key, f.access);
    match w
    case Success(_) => r := Success(());
    case Failure(NoEntry) => r := Success(());
    case Failure(e) => r := Failure(FromKeyring(e));
  }
}

/**
 * The client of the identity provider. The HTTP exchanges are oracles: each
 * reply is either the decoded body or the message of the transport or
 * decoding failure.
 */
module Client {
  import opened Wrappers
  import opened Errors
  import opened Env
  import opened Urls
  import opened SessionStore

  datatype Tokens = Tokens(
    accessToken: string, expiresIn: nat, idToken: string,
    refreshToken: string, scope: string, tokenType: string)

  datatype Account = Account(accountId: string, displayName: string, userHash: string)

  datatype HttpMethod = Get | Post

  datatype Body = NoBody | Form(fields: seq<Pair>) | Json(text: string)

  datatype HttpRequest = HttpRequest(verb: HttpMethod, url: string, headers: seq<Pair>, body: Body)

  const TOKEN_URL := "https://account.jagex.com/oauth2/token"
  const SESSIONS_URL := "https://auth.jagex.com/game-session/v1/sessions"
  const ACCOUNTS_URL := "https://auth.jagex.com/game-session/v1/accounts"

  const JSON_HEADERS: seq<Pair> := [("Content-Type", "application/json"), ("Accept", "application/json")]

  /** The authorization-code grant posted to the token endpoint (section 4.1.3 of RFC 6749). */
  function TokenRequest(env: Config, code: string, verifier: string): (r: HttpRequest)
    ensures r.verb == Post && r.url == TOKEN_URL && r.body.Form?
    ensures Find(r.body.fields, "grant_type") == Some("authorization_code")
    ensures Find(r.body.fields, "client_id") == Some(env.clientId)
    ensures Find(r.body.fields, "code") == Some(code)
    ensures Find(r.body.fields, "code_verifier") == Some(verifier)
    ensures Find(r.body.fields, "redirect_uri") == Some(env.redirect)
  {
    var fields := [
      ("grant_type", "authorization_code"),
      ("client_id", env.clientId),
      ("code", code),
      ("code_verifier", verifier),
      ("redirect_uri", env.redirect)];
    FindAt(fields, "grant_type", 0);
    FindAt(fields, "client_id", 1);
    FindAt(fields, "code", 2);
    FindAt(fields, "code_verifier", 3);
    FindAt(fields, "redirect_uri", 4);
    HttpRequest(Post, TOKEN_URL, [], Form(fields))
  }

  /** Exchanges an authorization code for tokens; any transport or decoding failure is a network error. */
  function Token(env: Config, code: string, verifier: string, reply: Result<Tokens, string>): (r: (Result<Tokens, AuthError>, HttpRequest))
    ensures r.1 == TokenRequest(env, code, verifier)
    ensures r.0.Success? <==> reply.Success?
    ensures reply.Success? ==> r.0.value == reply.value
    ensures reply.Failure? ==> r.0.error == NetworkError(reply.error)
  {
    (if reply.Success? then Success(reply.value) else Failure(NetworkError(reply.error)), TokenRequest(env, code, verifier))
  }

  /** The POST creating a session: a JSON body whose `idToken` field reads back the token. */
  function SessionRequest(idToken: string): (r: HttpRequest)
    ensures r.verb == Post && r.url == SESSIONS_URL && r.body.Json?
    ensures JsonField("idToken", r.body.text) == Success(idToken)
    ensures Find(r.headers, "Content-Type") == Some("application/json") && Find(r.headers, "Accept") == Some("application/json")
  {
    JsonRoundTrip("idToken", idToken);
    FindAt(JSON_HEADERS, "Content-Type", 0);
    FindAt(JSON_HEADERS, "Accept", 1);
    HttpRequest(Post, SESSIONS_URL, JSON_HEADERS, Json(JsonObject("idToken", idToken)))
  }

  /** The stored session, or SessionNotFound when there is none. */
  function SessionResult(m: Secrets, f: Faults): (r: Result<Session, AuthError>)
    ensures r.Success? <==> LoadResult(m, f).Success? && LoadResult(m, f).value.Some?
    ensures r.Success? ==> LoadResult(m, f).value == Some(r.value)
    ensures LoadResult(m, f) == Success(None) ==> r == Failure(SessionNotFound)
    ensures LoadResult(m, f).Failure? ==> r == Failure(LoadResult(m, f).error)
  {
    match LoadResult(m, f)
    case Success(Some(s)) => Success(s)
    case Success(None) => Failure(SessionNotFound)
    case Failure(e) => Failure(e)
  }

  /** SessionNotFound is reported exactly when loading finds nothing. */
  lemma SessionNotFoundIff(m: Secrets, f: Faults)
    ensures SessionResult(m, f) == Failure(SessionNotFound) <==> LoadResult(m, f) == Success(None)
  {
  }

  /** With a working keyring, SessionNotFound means exactly that the entry is missing. */
  lemma SessionMissingIff(m: Secrets)
    ensures SessionResult(m, NoFaults) == Failure(SessionNotFound) <==> SESSION_KEY !in m
  {
    if SESSION_KEY in m {
      var load := LoadResult(m, NoFaults);
      if load.Failure? {
        assert load.error == JsonError(m[SESSION_KEY]);
      }
    }
  }

  /** After a successful logout there is no session. */
  lemma LogoutThenSession(m: Secrets, f: Faults)
    requires ClearEffect(m, f).result.Success?
    ensures SessionResult(ClearEffect(m, f).secrets, NoFaults) == Failure(SessionNotFound)
  {
    ClearThenLoad(m, f);
  }

  /** The outcome of creating a session, the request posted and the secrets afterwards. */
  datatype Created = Created(result: Result<Session, AuthError>, request: HttpRequest, secrets: Secrets)

  /** Posts the id token; only a decoded session is stored, and only a stored one is returned. */
  function CreateSessionEffect(m: Secrets, idToken: string, reply: Result<Session, string>, f: Faults): (c: Created)
    ensures c.request == SessionRequest(idToken)
    ensures reply.Failure? ==> c.result == Failure(NetworkError(reply.error)) && c.secrets == m
    ensures c.result.Failure? ==> c.secrets == m
    ensures c.result.Success? <==> reply.Success? && f == NoFaults
    ensures c.result.Success? ==> c.result.value == reply.value && LoadResult(c.secrets, NoFaults) == Success(Some(reply.value))
    ensures c.result.Success? ==> c.secrets == m[SESSION_KEY := EncodeSession(reply.value)]
  {
    var req := SessionRequest(idToken);
    match reply
    case Failure(msg) => Created(Failure(NetworkError(msg)), req, m)
    case Success(s) =>
      var w := StoreEffect(m, s, f);
      if w.result.Success? then
        StoreThenLoad(m, s, f);
        Created(Success(s), req, w.secrets)
      else Created(Failure(w.result.error), req, w.secrets)
  }

  /** The GET listing the accounts, authorised by the session id as a bearer token. */
  function AccountsRequest(s: Session): (r: HttpRequest)
    ensures r.verb == Get && r.url == ACCOUNTS_URL && r.body == NoBody
    ensures Find(r.headers, "Authorization") == Some("Bearer " + s.sessionId)
    ensures Find(r.headers, "Accept") == Some("application/json")
  {
    FindAppend(JSON_HEADERS, [("Authorization", "Bearer " + s.sessionId)], "Authorization");
    FindAppend(JSON_HEADERS, [("Authorization", "Bearer " + s.sessionId)], "Accept");
    FindAt(JSON_HEADERS, "Accept", 1);
    HttpRequest(Get, ACCOUNTS_URL, JSON_HEADERS + [("Authorization", "Bearer " + s.sessionId)], NoBody)
  }

  /** The accounts listing and the request sent for it, if one was. */
  datatype Listed = Listed(result: Result<seq<Account>, AuthError>, request: Option<HttpRequest>)

  /** Lists the accounts of the stored session; without one, nothing is sent. */
  function AccountsResult(m: Secrets, f: Faults, reply: Result<seq<Account>, string>): (l: Listed)
    ensures SessionResult(m, f).Failure? ==> l == Listed(Failure(SessionResult(m, f).error), None)
    ensures SessionResult(m, f).Success? ==> l.request == Some(AccountsRequest(SessionResult(m, f).value))
    ensures SessionResult(m, f).Success? ==> l.request.Some? && l.request.value.verb == Get
    ensures SessionResult(m, f).Success? ==>
      Find(l.request.value.headers, "Authorization") == Some("Bearer " + SessionResult(m, f).value.sessionId)
    ensures SessionResult(m, f).Success? ==>
      l.result == if reply.Success? then Success(reply.value) else Failure(NetworkError(reply.error))
  {
    match SessionResult(m, f)
    case Failure(e) => Listed(Failure(e), None)
    case Success(s) =>
      var req := AccountsRequest(s);
      Listed(if reply.Success? then Success(reply.value) else Failure(NetworkError(reply.error)), Some(req))
  }

  /** The stored session of `session()`, read from the keyring. */
  method LoadSession(kr: Keyring, f: Faults) returns (r: Result<Session, AuthError>)
    ensures r == SessionResult(kr.entries, f)
  {
    var loaded := Load(kr, f);
    match loaded
    case Success(Some(s)) => r := Success(s);
    case Success(None) => r := Failure(SessionNotFound);
    case Failure(e) => r := Failure(e);
  }

  method Logout(kr: Keyring, f: Faults) returns (r: Result<(), AuthError>)
    modifies kr
    ensures Write(r, kr.entries) == ClearEffect(old(kr.entries), f)
  {
    r := Clear(kr, f);
  }

  method CreateSession(kr: Keyring, idToken: string, reply: Result<Session, string>, f: Faults)
    returns (r: Result<Session, AuthError>, sent: HttpRequest)
    modifies kr
    ensures Created(r, sent, kr.entries) == CreateSessionEffect(old(kr.entries), idToken, reply, f)
  {
    sent := SessionRequest(idToken);
    match reply
    case Failure(msg) =>
      r := Failure(NetworkError(msg));
    case Success(s) =>
      var stored := Store(kr, s, f);
      r := if stored.Success? then Success(s) else Failure(stored.error);
  }

  method Accounts(kr: Keyring, f: Faults, reply: Result<seq<Account>, string>)
    returns (r: Result<seq<Account>, AuthError>, sent: Option<HttpRequest>)
    ensures Listed(r, sent) == AccountsResult(kr.entries, f, reply)
  {
    var session := LoadSession(kr, f);
    match session
    case Failure(e) =>
      r, sent := Failure(e), None;
    case Success(s) =>
      sent := Some(AccountsRequest(s));
      r := if reply.Success? then Success(reply.value) else Failure(NetworkError(reply.error));
  }
}
