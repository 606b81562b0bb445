# auth-rs in Dafny

A model of the core of `auth-rs`, a command-line helper that signs a desktop
user in to a game-account identity provider with OAuth 2.0 and PKCE, keeps the
resulting game session in the platform keyring and uses it to list and launch
characters. The model covers:

- **the redirect classifier** (`Browser`): a navigated URL is the first-hop
  launcher redirect carrying `code` and `state`, the consent redirect to
  `localhost` carrying `id_token` and `state` (read after every `#` is turned
  into `?`, since the hybrid flow of section 3.3 of OpenID Connect Core 1.0
  returns its parameters in the fragment), or neither. The navigation handler
  lets the webview follow exactly the URLs that are neither. The two
  authorization URLs are built here, with their query pairs in order.
- **the two-hop CSRF state machine** (`BrowserFlow`): a worker takes the
  recognised redirects one by one. A first hop whose `state` differs from
  the attempt's is rejected before any exchange (the `state` defence of
  section 10.12 of RFC 6749). A matching one exchanges the code and remembers
  the fresh consent state in the shared slot. The consent hop is acted on
  only when the slot holds exactly its state; it creates and stores the
  session and closes the window. The loop stops at the first error or
  undeliverable event and always ends by posting `Close`. The worker is a
  class whose methods are proved against the functions `AuthStep`,
  `ConsentStep`, `Advance` and `RunSpec`.
- **the session store and client** (`SessionStore`, `Client`): one keyring
  entry (service `auth-rs`, user `session`) holding the session as JSON; a
  missing entry is "no session", not an error; the token, session and
  accounts requests and how their replies and failures surface.
- **the keyring error mapping** (`Errors.FromKeyring`).
- **the desktop entry** (`Desktop`): the `auth-rs exec …` line, the file name
  sanitiser, the entry's path and text.
- **the `exec` subcommand** (`Cli`): the session is loaded before the
  accounts are listed, the first account with the requested id is chosen, its
  identity is exported in three variables and the program is put first in its
  own argument vector; otherwise `CharacterNotFound` lists every account.

The network, the keyring backend's failures, fresh UUIDs and PKCE values, the
directories the platform reports and the result of `execvp` are parameters
(oracles) of the model: every function and method takes what the world
answered as an argument. The deployment constants of the environment module
(`ORIGIN`, `CLIENT_ID`, `REDIRECT`) are the `Env.Config` parameter; that
module is not part of this model.

The consent state is read at src/browser.rs:40 and never cleared, so a
repeated consent redirect with the same state is acted on again;
`ConsentStep` leaves the slot as it was.

## Model

| member | source | states |
|---|---|---|
| Browser.TryParseAuthRedirect | src/browser.rs:101-121 | None unless scheme `https`, host `secure.runescape.com` and the launcher path match exactly; Some exactly when both `code` and `state` are found, each the value of the first pair with that name |
| Browser.TryParseConsentRedirect | src/browser.rs:123-138 | after every `#` becomes `?`: Some exactly when the URL parses with host `localhost` and both `state` and `id_token` are found, each the first such pair; no scheme or path check |
| Browser.ParseRedirect | src/browser.rs:87-99 | an unparsable URL is no redirect; the auth matcher's answer wins when it has one, otherwise the consent matcher's |
| Browser.ConsentFragmentIsQuery | src/browser.rs:124 | putting the parameters behind `#` or behind `?` gives the consent matcher the same answer |
| Browser.FragmentAsQuery | src/browser.rs:124 | turning `#` into `?` in a URL whose parameters sit in its fragment gives the URL carrying them as its query |
| Browser.RecognisesAuthRedirect | src/browser.rs:87-121 | the text of a well-formed launcher redirect carrying `code` and `state` is classified as that auth redirect |
| Browser.RecognisesConsentRedirect | src/browser.rs:123-138 | the text of a `localhost` redirect whose fragment carries the parameters is classified as the consent redirect with the first `id_token` and `state` |
| Browser.NavigationHandler | src/browser.rs:250-275 | navigation proceeds exactly when the URL is no redirect; otherwise exactly one message is sent, an auth message carrying the attempt's options unchanged |
| Browser.AuthorizeEndpoint | src/browser.rs:154-155 | the origin's path replaced by `/oauth2/auth`; an unparsable origin is `InvalidUrl`, and every failure is `InvalidUrl` |
| Browser.EndpointRoundTrip | src/browser.rs:171 | the endpoint with a query that needs no encoding reads back as itself |
| Browser.AuthQueryLookups | src/browser.rs:156-168 | each of the nine first-hop parameters is found with its value: launcher flow, code response, client id, redirect URI, challenge, `S256`, `login`, the four scopes, the attempt's state |
| Browser.ConsentQueryLookups | src/browser.rs:179-187 | each of the eight consent parameters is found with its value: id token hint, nonce, `consent`, `id_token code`, the consent client id, `http://localhost`, `openid offline`, the fresh state |
| Browser.AuthQuerySafe | src/browser.rs:156-168 | the first-hop query needs no encoding when the client id, redirect URI, challenge and state need none |
| Browser.ConsentQuerySafe | src/browser.rs:179-187 | the consent query needs no encoding when the id token, state and nonce need none |
| Browser.AppendAuthPairs | src/browser.rs:156-169 | appending the pairs one by one yields the first-hop query |
| Browser.AppendConsentPairs | src/browser.rs:179-188 | appending the pairs one by one yields the consent query |
| Browser.AuthQuery | src/browser.rs:156-168 | the nine first-hop parameter names in the order they are appended, the attempt's state last |
| Browser.ConsentQuery | src/browser.rs:179-187 | the eight consent parameter names in the order they are appended, the id token hint first and the fresh state last |
| Browser.CreateAuthUrl | src/browser.rs:152-172 | fails exactly when the endpoint does, with its error; when the query's values need no encoding (`SafeQuery`), the URL read back is the endpoint carrying the first-hop query |
| Browser.CreateConsentUrl | src/browser.rs:174-191 | fails exactly when the endpoint does; returns the fresh state; when the id token, state and nonce need no encoding (`SafeValue`), the URL read back carries the consent query, whose `state` is that state |
| Browser.BuildAuthUrl | src/browser.rs:152-172 | building the endpoint and appending the pairs one by one gives CreateAuthUrl's result |
| Browser.BuildConsentUrl | src/browser.rs:174-191 | building the endpoint and appending the pairs one by one gives CreateConsentUrl's result |
| BrowserFlow.AuthStep | src/browser.rs:13-32 | a state mismatch is `InvalidResponse` with nothing sent and nothing changed; otherwise the token request is sent; success exactly when the exchange and endpoint succeed, and only then is the slot set to the fresh consent state and the consent URL returned |
| BrowserFlow.ConsentStep | src/browser.rs:34-49 | empty slot and mismatched slot are two distinct `InvalidResponse` errors with nothing sent; only a slot holding the state sends the session request; success exactly when the reply and store succeed, then the session is stored and `Close` returned; the slot is never cleared |
| BrowserFlow.Handle | src/browser.rs:202-209 | each message goes to its hop's handler; a failing hop leaves the slot alone; requests only grow |
| BrowserFlow.Advance | src/browser.rs:211-224 | an iteration posts at least one event; stopping means the last event posted is `Close`; an error is recorded only when the loop stops; the slot changes only on a matched first hop with a successful exchange |
| BrowserFlow.AfterHandleOutcome | src/browser.rs:211-224 | what the loop does with a handler's outcome: an event is posted, followed by `Close` and a stop when the window no longer takes it; an error is recorded, `Close` posted and the loop stopped |
| BrowserFlow.Loop | src/browser.rs:200-228 | the worker loop over any iteration: messages taken in order until one stops the loop or none is left, then the final `Close` |
| BrowserFlow.RunSpec | src/browser.rs:200-228 | the worker loop whose iteration is Advance |
| BrowserFlow.RunStep | src/browser.rs:201-209 | a message that does not stop the loop hands the rest of the channel to the next iteration |
| BrowserFlow.RunHalt | src/browser.rs:211-224 | a message that stops the loop is followed only by the final `Close` |
| BrowserFlow.RunKeepsPosted | src/browser.rs:200-228 | the loop keeps every event already posted and adds at least one |
| BrowserFlow.LoopEndsWithClose | src/browser.rs:215-227 | the last event the loop posts is `Close`, however it ends |
| BrowserFlow.RunKeepsRequests | src/browser.rs:200-228 | requests already sent are kept, in order |
| BrowserFlow.HaltIgnoresRest | src/browser.rs:216-222 | once the loop has stopped, later messages are never handled |
| BrowserFlow.FullRunPostsEach | src/browser.rs:201-227 | when nothing stops the loop, one event per message is posted, then exactly one `Close`, and no error is recorded |
| BrowserFlow.FailureMeansHalted | src/browser.rs:219-223 | an error is recorded only when some iteration failed, and the loop stopped there |
| BrowserFlow.SlotSetOnlyByAuth | src/browser.rs:20-29 | the slot only ever changes to the consent state of a first hop whose state matched and whose exchange succeeded |
| BrowserFlow.ConsentBeforeAuthRejected | src/browser.rs:40-47 | a consent redirect before any first hop sends nothing, stores nothing, records `NO_CONSENT_STATE` and posts `Close` twice |
| BrowserFlow.AuthMismatchRejected | src/browser.rs:20-22 | a forged first-hop state stops the flow before any exchange, with the mismatch error and two `Close`s |
| BrowserFlow.AuthHopSucceeds | src/browser.rs:20-31 | a matched first hop sends exactly the token request, sets the slot, keeps the keyring and posts the consent URL |
| BrowserFlow.ConsentHopSucceeds | src/browser.rs:42-45 | a consent redirect carrying the remembered state sends exactly the session request, stores the session and posts `Close` |
| BrowserFlow.TwoHops | src/browser.rs:201-227 | two hops that both continue the loop are followed by just the final `Close` |
| BrowserFlow.HappyPath | src/browser.rs:13-49 | the intended run sends the token then the session request, stores the session, keeps the first hop's consent state and records no error |
| BrowserFlow.HappyPathStored | src/browser.rs:43 | after the intended run the stored session loads back as the one the session endpoint returned |
| BrowserFlow.HappyPathEvents | src/browser.rs:211-227 | the intended run posts the consent URL, then `Close` from the handler and `Close` from the end of the loop |
| BrowserFlow.Worker.constructor | src/browser.rs:233 | a fresh worker has an empty slot and has posted and sent nothing |
| BrowserFlow.Worker.HandleAuthRedirect | src/browser.rs:13-32 | updates the worker exactly as AuthStep says |
| BrowserFlow.Worker.HandleConsentRedirect | src/browser.rs:34-49 | updates the worker and keyring exactly as ConsentStep says |
| BrowserFlow.Worker.Dispatch | src/browser.rs:202-209 | dispatches as Handle says |
| BrowserFlow.Worker.Deliver | src/browser.rs:202-224 | an iteration of the loop, as Advance says |
| BrowserFlow.Worker.Run | src/browser.rs:200-228 | drains the channel in order; the final state is RunSpec's |
| SessionStore.JsonRoundTrip | src/client.rs:60 | a one-field JSON object reads back its value |
| SessionStore.EncodeSession | src/client.rs:60 | the session's JSON object, whose `sessionId` field reads back the id |
| SessionStore.DecodeSession | src/client.rs:69 | a decoded session encodes back to the text; text that is not one is a `JsonError` carrying it |
| SessionStore.SessionRoundTrip | src/client.rs:35-39 | a stored session decodes to itself |
| SessionStore.Keyring.SetPassword | src/client.rs:61 | writes the secret at the entry unless the platform fails, then nothing changes |
| SessionStore.Keyring.GetPassword | src/client.rs:67 | reads the entry; a missing entry is `NoEntry` |
| SessionStore.Keyring.DeleteCredential | src/client.rs:79 | removes the entry; a missing entry is `NoEntry` |
| SessionStore.GetEntry | src/client.rs:50-56 | every operation addresses service `auth-rs`, user `session`; a platform refusal goes through the keyring error mapping |
| SessionStore.StoreEffect | src/client.rs:58-63 | succeeds exactly without faults, and then the entry holds the session's JSON; on failure the keyring is unchanged |
| SessionStore.LoadResult | src/client.rs:65-75 | without faults, none exactly when the entry is missing; never `SessionNotFound`; errors are JSON or keyring errors; a loaded session is what the entry encodes |
| SessionStore.ClearEffect | src/client.rs:77-84 | succeeds exactly without faults, a missing entry included, and then the entry is gone; on failure nothing changes |
| SessionStore.StoreThenLoad | src/client.rs:58-75 | a stored session loads back, whatever else the keyring holds |
| SessionStore.OtherEntriesUntouched | src/client.rs:50-55 | store and clear never touch any other entry |
| SessionStore.ClearIdempotent | src/client.rs:77-84 | clearing twice is clearing once |
| SessionStore.ClearThenLoad | src/client.rs:65-84 | after a successful clear nothing is loaded |
| SessionStore.Store | src/client.rs:58-63 | changes the keyring as StoreEffect says |
| SessionStore.Load | src/client.rs:65-75 | returns LoadResult |
| SessionStore.Clear | src/client.rs:77-84 | changes the keyring as ClearEffect says |
| Client.TokenRequest | src/client.rs:104-115 | a POST form to the token endpoint with the authorization-code grant, client id, code, verifier and redirect URI |
| Client.Token | src/client.rs:104-122 | the tokens exactly when the reply is; a transport failure is a `NetworkError` |
| Client.SessionRequest | src/client.rs:124-132 | a POST to the sessions endpoint with JSON content and accept headers, whose body's `idToken` field reads back the token |
| Client.AccountsRequest | src/client.rs:144-150 | a GET to the accounts endpoint without a body, with `Authorization: Bearer <session id>` and the JSON accept header |
| Client.SessionResult | src/client.rs:138-140 | the loaded session; `SessionNotFound` exactly when nothing is loaded; load errors pass through |
| Client.SessionNotFoundIff | src/client.rs:138-140 | `SessionNotFound` if and only if loading finds no entry |
| Client.SessionMissingIff | src/client.rs:65-75 | with a working keyring, `SessionNotFound` if and only if the entry is missing |
| Client.LogoutThenSession | src/client.rs:155-157 | after a successful logout there is no session |
| Client.CreateSessionEffect | src/client.rs:124-136 | posts the id token; stores only a decoded session, and returns it only when stored; on any failure the keyring is unchanged |
| Client.AccountsResult | src/client.rs:142-153 | without a session, its error and no request; otherwise exactly the accounts request for that session, a GET with `Authorization: Bearer <session id>`, and the reply or a `NetworkError` |
| Client.LoadSession | src/client.rs:138-140 | returns SessionResult |
| Client.Logout | src/client.rs:155-157 | changes the keyring as ClearEffect says |
| Client.CreateSession | src/client.rs:124-136 | returns and changes the keyring as CreateSessionEffect says |
| Client.Accounts | src/client.rs:142-153 | returns and sends what AccountsResult says |
| Errors.FromKeyring | src/error.rs:96-104 | `NoEntry` and only it maps to `SessionNotFound`; a platform failure to `CredentialStoreError` with its message; any other to `KeyringError` with its text; never another variant |
| Desktop.ExecTokens | src/desktop.rs:17-40 | `auth-rs exec`, then `--session-name <name>` exactly when a session is named, then `--character-id <id>` and the program, then `--` and the arguments in order exactly when there are any |
| Desktop.BuildExecCommand | src/desktop.rs:17-40 | pushing the words one by one and joining with single spaces gives the words of ExecTokens |
| Desktop.ExecLineSplits | src/desktop.rs:39 | when no supplied word holds a space, the line splits back into its words |
| Desktop.NoQuoting | src/desktop.rs:39 | an argument holding a space gives the same line as two arguments: nothing is quoted |
| Desktop.SanitizeFilename | src/desktop.rs:65-69 | same length; only `a-z`, `0-9`, `-`, `_`; an unkept character becomes `_`, a kept one is lower-cased |
| Desktop.SanitizeIdempotent | src/desktop.rs:65-69 | sanitising twice is sanitising once |
| Desktop.EntryPath | src/desktop.rs:71 | the path ends with `<file name>.desktop` and is `<dir>/<file name>.desktop` under a directory not ending in `/` |
| Desktop.EntryContents | src/desktop.rs:52-63 | the entry's eight lines, each ended by a newline |
| Desktop.EntryContentsLines | src/desktop.rs:52-63 | without newlines in the name or command the text reads back as the eight lines, `Name=<name>` second and `Exec=<command>` fourth, ending with a newline |
| Desktop.ApplicationsDir | src/desktop.rs:4-15 | `applications` under the data directory, else under the home's `.local/share`; `NoCacheDir` without either; a failed creation is a `FileSystemError` |
| Desktop.CreateEntry | src/desktop.rs:42-76 | without an applications directory nothing is written; otherwise the entry's text is written at its path and the path returned, or the write's `FileSystemError` |
| Cli.AccountIndex | src/main.rs:117 | the position of the first account with the id, or the length when none has it |
| Cli.FindAccount | src/main.rs:117 | none exactly when no account has the id; a found account has it |
| Cli.FindAccountSpec | src/main.rs:117 | an account is found exactly when some account has the id, and it is the first such |
| Cli.AccountLines | src/main.rs:131-133 | one `  • <name> (ID: <id>)` line per account, in list order |
| Cli.AvailableChars | src/main.rs:129-134 | the account lines joined by newlines |
| Cli.AvailableCharsLines | src/main.rs:129-134 | the listing splits back into one `  • <name> (ID: <id>)` line per account, in order |
| Cli.NoAccountsListed | src/main.rs:129-134 | with no accounts the listing is empty |
| Cli.LaunchFor | src/main.rs:118-123 | the program, `[exec] + args` as its argument vector, and the environment with the session id, account id and display name exported and every other variable kept |
| Cli.ExecSpec | src/main.rs:106-141 | a failed session load ends the command before any request; otherwise the accounts request is the listing's; an error not from execvp is never `ExecError` |
| Cli.ReplacedIff | src/main.rs:113-124 | the process is replaced exactly when both session loads, the listing and execvp succeed and some account has the id |
| Cli.ReplacedLaunch | src/main.rs:117-124 | what replaces the process is the program with its arguments behind it, the session id, the requested id and the first matching account's display name |
| Cli.CharacterNotFoundIff | src/main.rs:129-139 | `CharacterNotFound` exactly when the listing succeeds and no account has the id; it carries the id verbatim and lists every account |
| Cli.ExecErrorIff | src/main.rs:124-128 | `ExecError` exactly when the account is found and execvp returns; it names the program and the launch attempted had `[exec] + args` |
| Cli.Exec | src/main.rs:106-141 | runs the subcommand against the keyring with the outcome and request ExecSpec describes |
| Urls.ParseSerialize | src/browser.rs:88 | a well-formed URL reads back from its text unchanged |
| Urls.QueryRoundTrip | src/browser.rs:156-168 | pairs appended to a query read back the same, in order |
| Urls.Find | src/browser.rs:114-115 | none exactly when no pair has the name; otherwise the value of the first pair with it |
| Urls.FindAppend | src/client.rs:146-148 | looking a name up in two lists run together finds it in the first when it is there |

## Left out

- The window, webview and event loop (src/browser.rs:231-322): UI plumbing; the model ends at the events posted to the window.
- Concurrency: the tokio task, the channel and the mutex become a sequence of messages and a plain slot. A poisoned lock, which makes `handle_auth_redirect` skip the slot write and `handle_consent_redirect` read no state, is not modelled.
- HTTP: reqwest is replaced by reply oracles. A transport failure and a body that does not decode both surface as `NetworkError` carrying a message.
- `AuthOptions::new` (src/browser.rs:58-72): the UUID, the PKCE verifier and the SHA-256 challenge are inputs. Its UTF-8 failure path is not modelled, because the verifier is ASCII.
- The fresh UUIDs of the consent URL are inputs (`Oracle.consentState` and `Oracle.nonce`).
- `Urls.Parse`: a simplified parser for hierarchical URLs stands in for the WHATWG parser of the `url` crate. It does no percent-encoding or decoding, no `+` decoding and no whitespace trimming. It handles only ASCII case folding of the scheme and host, and the `host/path` splitting is simplified. Round trips are proved only for pairs the serialiser writes unambiguously. Further differences from the WHATWG parser: ports and user information are dropped from the host; dot segments in paths are not normalised; a special-scheme URL without `//` (`https:host`) is read with no host and the path `host`, where WHATWG takes `host` as the host. Special schemes get no special treatment. So `file://localhost/#id_token=t&state=s` keeps `localhost` as its host, where WHATWG empties it, and the opaque host of `foo://LOCALHOST#…` is lower-cased, where WHATWG keeps its case. Both are recognised as consent redirects here, while the source returns none for them.
- `Browser.AuthorizeEndpoint`: `join("/oauth2/auth")` is modelled as replacing the path and dropping the query and fragment. A URL without a host is `InvalidUrl(CannotBeABase)`. The `Url` record has no port and no user information, so an origin such as `https://account.jagex.com:8443` gives an endpoint without its port, where `join` keeps it.
- `Browser.CreateAuthUrl`: the query is written without percent-encoding, and the URL is proved to read back only when no value holds `&` or `#` and no name holds `&`, `=` or `#`. The source's `query_pairs_mut` writes form-encoded text, such as `openid+offline+…` for the scope and `%3A%2F%2F` inside a redirect URI.
- `Browser.CreateConsentUrl`: the same missing encoding. `response_type=id_token code`, `scope=openid offline` and `redirect_uri=http://localhost` are written as they stand, and the read-back is proved only for an id token, state and nonce without `&` or `#`. An id token holding `&state=…` is read back with that injected state, where the source would encode it.
- JSON: a one-field object without string escaping stands in for serde.
- `Client.Token`: the `SystemTime` timestamp of `AuthState` is not modelled.
- Keyring error texts: the rendering of keyring errors is a payload of the failure, since the keyring crate is not part of this model.
- `Faults`: an injected keyring fault is never `NoEntry`. The keyring reports a missing entry exactly when the map lacks it.
- `Desktop.SanitizeFilename`: `is_alphanumeric` and `to_lowercase` are modelled on ASCII only. A non-ASCII letter becomes `_`, where the source would keep it and lower-case it with Unicode rules.
- `Desktop.JoinPath`: `PathBuf::join` is modelled as string concatenation with one `/`. An absolute second component is not considered; a sanitised file name never is one.
- Platform I/O: the data and home directories, directory creation and the file write are oracle inputs. The process environment is a map, and `execvp` is an oracle answering whether the image was replaced.
- The other subcommands and their output: clap parsing, console styling and logging. Miette's help text is left out too; the error variants carry their fields only.
- Version skew: src/main.rs calls `Client::new(session_name)` and `accounts(offline, write_cache)`, but src/client.rs takes no arguments. The model follows src/client.rs, so there are no named sessions and no offline cache.
