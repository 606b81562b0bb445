/** The application's error taxonomy and the mapping from keyring failures into it. */
module Errors {

  /** Why a URL could not be used: it did not parse, or a path could not be joined onto it. */
  datatype UrlError = ParseFailed | CannotBeABase

  /**
   * The application errors. Payloads that wrap a foreign error are modelled
   * by that error's message.
   */
  datatype AuthError =
    | WebviewError(message: string)
    | NetworkError(message: string)
    | JsonError(message: string)
    | FileSystemError(message: string)
    | InvalidUrl(cause: UrlError)
    | InvalidResponse(message: string)
    | SessionNotFound
    | CharacterNotFound(characterId: string, availableChars: string)
    | ExecError(program: string, details: string)
    | KeyringError(message: string)
    | CredentialStoreError(message: string)
    | NoCacheDir

  /** The kinds of keyring failure other than a missing entry and a platform failure. */
  datatype KeyringKind = NoStorageAccess | BadEncoding | TooLong | Invalid | Ambiguous

  /**
   * A keyring failure. `PlatformFailure` carries the message of the platform
   * error it wraps; the other kinds carry the keyring error's own rendering.
   */
  datatype KeyringFailure =
    | NoEntry
    | PlatformFailure(cause: string)
    | Other(kind: KeyringKind, rendered: string)

  /** The variants a keyring failure can turn into. */
  predicate FromKeyringVariant(e: AuthError)
  {
    e.SessionNotFound? || e.CredentialStoreError? || e.KeyringError?
  }

  /** Maps a keyring failure to an application error. */
  function FromKeyring(k: KeyringFailure): (e: AuthError)
    ensures FromKeyringVariant(e)
    ensures e == SessionNotFound <==> k == NoEntry
    ensures e.CredentialStoreError? <==> k.PlatformFailure?
    ensures k.PlatformFailure? ==> e.message == k.cause
    ensures k.Other? ==> e == KeyringError(k.rendered)
  {
    match k
    case NoEntry => SessionNotFound
    case PlatformFailure(cause) => CredentialStoreError(cause)
    case Other(_, rendered) => KeyringError(rendered)
  }
}
