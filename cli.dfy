/**
 * The `exec` subcommand: load the stored session, list its accounts, pick the
 * one with the requested id, export it to the environment and replace the
 * process with the requested program.
 */
module Cli {
  import opened Wrappers
  import opened Errors
  import opened Strings
  import opened SessionStore
  import opened Client

  /** Position of the first account with id `id`, or `|accounts|` when none has it. */
  function AccountIndex(accounts: seq<Account>, id: string): (i: nat)
    ensures i <= |accounts|
    ensures i < |accounts| ==> accounts[i].accountId == id
    ensures forall k :: 0 <= k < i ==> accounts[k].accountId != id
  {
    if accounts == [] then 0
    else if accounts[0].accountId == id then 0
    else 1 + AccountIndex(accounts[1..], id)
  }

  /** The first account with id `id`, if there is one. */
  function FindAccount(accounts: seq<Account>, id: string): (r: Option<Account>)
    ensures r.None? <==> forall k :: 0 <= k < |accounts| ==> accounts[k].accountId != id
    ensures r.Some? ==> r.value.accountId == id
  {
    var i := AccountIndex(accounts, id);
    if i < |accounts| then Some(accounts[i]) else None
  }

  /** An account is found exactly when one has the id, and what is found is the first such account. */
  lemma FindAccountSpec(accounts: seq<Account>, id: string)
    ensures FindAccount(accounts, id).Some? <==> exists k :: 0 <= k < |accounts| && accounts[k].accountId == id
    ensures FindAccount(accounts, id).Some? ==>
      exists k :: 0 <= k < |accounts| && accounts[k] == FindAccount(accounts, id).value
        && accounts[k].accountId == id
        && forall j :: 0 <= j < k ==> accounts[j].accountId != id
  {
    var i := AccountIndex(accounts, id);
    if i < |accounts| {
      assert accounts[i] == FindAccount(accounts, id).value;
    }
  }

  /** The line an account is listed by when the requested one is missing. */
  function AccountLine(a: Account): string
  {
    "  • " + a.displayName + " (ID: " + a.accountId + ")"
  }

  /** The listing of every account, one line each, in order. */
  function AvailableChars(accounts: seq<Account>): string
  {
    Join(AccountLines(accounts), "\n")
  }

  function AccountLines(accounts: seq<Account>): (lines: seq<string>)
    ensures |lines| == |accounts|
    ensures forall k :: 0 <= k < |accounts| ==> lines[k] == AccountLine(accounts[k])
  {
    seq(|accounts|, k requires 0 <= k < |accounts| => AccountLine(accounts[k]))
  }

  /** With no accounts there is nothing to list. */
  lemma NoAccountsListed()
    ensures AvailableChars([]) == ""
  {
  }

  /** The fixed parts of a listing line hold no newline. */
  lemma LinePartsUnbroken()
    ensures '\n' !in "  • " && '\n' !in " (ID: " && '\n' !in ")"
  {
  }

  /** When no name or id holds a newline, the listing reads back as one line per account. */
  lemma AvailableCharsLines(accounts: seq<Account>)
    requires |accounts| >= 1
    requires forall k :: 0 <= k < |accounts| ==> '\n' !in accounts[k].displayName && '\n' !in accounts[k].accountId
    ensures Split(AvailableChars(accounts), '\n') == AccountLines(accounts)
  {
    var lines := AccountLines(accounts);
    LinePartsUnbroken();
    forall k | 0 <= k < |lines| ensures '\n' !in lines[k] {
      var a := accounts[k];
      assert lines[k] == "  • " + a.displayName + " (ID: " + a.accountId + ")";
    }
    SplitJoin(lines, '\n');
  }

  const SESSION_VAR := "JX_SESSION_ID"
  const CHARACTER_VAR := "JX_CHARACTER_ID"
  const NAME_VAR := "JX_DISPLAY_NAME"

  /** The process image asked for: the program, its argument vector and its environment. */
  datatype Launch = Launch(program: string, argv: seq<string>, environ: map<string, string>)

  /**
   * How `exec` ends: the process was replaced by the program, or an error is
   * reported, with the launch that was attempted when the failure came from it.
   */
  datatype Outcome =
    | Replaced(launch: Launch)
    | Failed(error: AuthError, attempted: Option<Launch>)

  /** The outcome and the accounts request sent on the way, if one was. */
  datatype ExecRun = ExecRun(outcome: Outcome, sent: Option<HttpRequest>)

  /** The launch for `account`: the program first in its own argument vector, three variables exported. */
  function LaunchFor(environ: map<string, string>, session: Session, account: Account, exec: string, args: seq<string>): (l: Launch)
    ensures l.program == exec && |l.argv| == |args| + 1 && l.argv[0] == exec && l.argv[1..] == args
    ensures l.environ.Keys == environ.Keys + {SESSION_VAR, CHARACTER_VAR, NAME_VAR}
    ensures l.environ[SESSION_VAR] == session.sessionId
    ensures l.environ[CHARACTER_VAR] == account.accountId
    ensures l.environ[NAME_VAR] == account.displayName
    ensures forall v :: v in environ && v !in {SESSION_VAR, CHARACTER_VAR, NAME_VAR} ==> l.environ[v] == environ[v]
  {
    var e := environ[SESSION_VAR := session.sessionId][CHARACTER_VAR := account.accountId][NAME_VAR := account.displayName];
    Launch(exec, [exec] + args, e)
  }

  /** The error reported when the program could not replace the process. */
  function ExecFailure(exec: string, errno: string): AuthError
  {
    ExecError(exec, "System error (errno: " + errno + ")")
  }

  /**
   * The `exec` subcommand. `f1` and `f2` are the keyring faults of the two
   * session loads (the command's own and the one inside the accounts
   * listing), `reply` the accounts reply and `execErrno` what execvp returns:
   * None when the process image is replaced.
   */
  function ExecSpec(
    m: Secrets, f1: Faults, f2: Faults, reply: Result<seq<Account>, string>, environ: map<string, string>,
    characterId: string, exec: string, args: seq<string>, execErrno: Option<string>): (r: ExecRun)
    ensures SessionResult(m, f1).Failure? ==> r == ExecRun(Failed(SessionResult(m, f1).error, None), None)
    ensures SessionResult(m, f1).Success? ==> r.sent == AccountsResult(m, f2, reply).request
    ensures r.outcome.Failed? && r.outcome.attempted.None? ==> !r.outcome.error.ExecError?
  {
    match SessionResult(m, f1)
    case Failure(e) => ExecRun(Failed(e, None), None)
    case Success(session) =>
      var listed := AccountsResult(m, f2, reply);
      match listed.result
      case Failure(e) =>
        assert e.NetworkError? || e.JsonError? || FromKeyringVariant(e);
        ExecRun(Failed(e, None), listed.request)
      case Success(accounts) =>
        match FindAccount(accounts, characterId)
        case None => ExecRun(Failed(CharacterNotFound(characterId, AvailableChars(accounts)), None), listed.request)
        case Some(account) =>
          var launch := LaunchFor(environ, session, account, exec, args);
          match execErrno
          case None => ExecRun(Replaced(launch), listed.request)
          case Some(errno) => ExecRun(Failed(ExecFailure(exec, errno), Some(launch)), listed.request)
  }

  /** The process is replaced exactly when both session loads, the listing and execvp succeed and some account has the id. */
  lemma ReplacedIff(
    m: Secrets, f1: Faults, f2: Faults, reply: Result<seq<Account>, string>, environ: map<string, string>,
    characterId: string, exec: string, args: seq<string>, execErrno: Option<string>)
    ensures ExecSpec(m, f1, f2, reply, environ, characterId, exec, args, execErrno).outcome.Replaced?
      <==> (SessionResult(m, f1).Success? && SessionResult(m, f2).Success? && reply.Success?
           && (exists k :: 0 <= k < |reply.value| && reply.value[k].accountId == characterId)
           && execErrno.None?)
  {
    if SessionResult(m, f1).Success? && SessionResult(m, f2).Success? && reply.Success? {
      FindAccountSpec(reply.value, characterId);
    }
  }

  /** What replaces the process: the program, its arguments behind it, and the first account with the id exported. */
  lemma ReplacedLaunch(
    m: Secrets, f1: Faults, f2: Faults, reply: Result<seq<Account>, string>, environ: map<string, string>,
    characterId: string, exec: string, args: seq<string>, execErrno: Option<string>)
    requires ExecSpec(m, f1, f2, reply, environ, characterId, exec, args, execErrno).outcome.Replaced?
    ensures var l := ExecSpec(m, f1, f2, reply, environ, characterId, exec, args, execErrno).outcome.launch;
      && reply.Success? && SessionResult(m, f1).Success?
      && l.program == exec && l.argv == [exec] + args
      && l.environ[SESSION_VAR] == SessionResult(m, f1).value.sessionId
      && l.environ[CHARACTER_VAR] == characterId
      && var i := AccountIndex(reply.value, characterId);
         i < |reply.value| && l.environ[NAME_VAR] == reply.value[i].displayName
  {
    var l := ExecSpec(m, f1, f2, reply, environ, characterId, exec, args, execErrno).outcome.launch;
    assert l.argv == [l.argv[0]] + l.argv[1..];
  }

  /** CharacterNotFound is reported exactly when the listing succeeds and no account has the id; it lists every account. */
  lemma CharacterNotFoundIff(
    m: Secrets, f1: Faults, f2: Faults, reply: Result<seq<Account>, string>, environ: map<string, string>,
    characterId: string, exec: string, args: seq<string>, execErrno: Option<string>)
    ensures var o := ExecSpec(m, f1, f2, reply, environ, characterId, exec, args, execErrno).outcome;
      o.Failed? && o.error.CharacterNotFound?
      <==> (SessionResult(m, f1).Success? && SessionResult(m, f2).Success? && reply.Success?
           && forall k :: 0 <= k < |reply.value| ==> reply.value[k].accountId != characterId)
    ensures var o := ExecSpec(m, f1, f2, reply, environ, characterId, exec, args, execErrno).outcome;
      o.Failed? && o.error.CharacterNotFound? ==>
        o.error == CharacterNotFound(characterId, AvailableChars(reply.value)) && o.attempted.None?
  {
    if SessionResult(m, f1).Success? && SessionResult(m, f2).Success? && reply.Success? {
      FindAccountSpec(reply.value, characterId);
    }
  }

  /** ExecError is reported exactly when the account is found and execvp returns; it names the program. */
  lemma ExecErrorIff(
    m: Secrets, f1: Faults, f2: Faults, reply: Result<seq<Account>, string>, environ: map<string, string>,
    characterId: string, exec: string, args: seq<string>, execErrno: Option<string>)
    ensures var o := ExecSpec(m, f1, f2, reply, environ, characterId, exec, args, execErrno).outcome;
      o.Failed? && o.error.ExecError?
      <==> (SessionResult(m, f1).Success? && SessionResult(m, f2).Success? && reply.Success?
           && (exists k :: 0 <= k < |reply.value| && reply.value[k].accountId == characterId)
           && execErrno.Some?)
    ensures var o := ExecSpec(m, f1, f2, reply, environ, characterId, exec, args, execErrno).outcome;
      o.Failed? && o.error.ExecError? ==>
        o.error == ExecFailure(exec, execErrno.value) && o.attempted.Some? && o.attempted.value.argv == [exec] + args
  {
    if SessionResult(m, f1).Success? && SessionResult(m, f2).Success? && reply.Success? {
      FindAccountSpec(reply.value, characterId);
    }
    var o := ExecSpec(m, f1, f2, reply, environ, characterId, exec, args, execErrno).outcome;
    if o.Failed? && o.attempted.Some? {
      var l := o.attempted.value;
      assert l.argv == [l.argv[0]] + l.argv[1..];
    }
  }

  /**
   * Runs `exec` against the keyring: the session is required before the
   * accounts are listed, the variables are set one by one and the program is
   * put in front of its arguments.
   */
  method Exec(
    kr: Keyring, f1: Faults, f2: Faults, reply: Result<seq<Account>, string>, environ: map<string, string>,
    characterId: string, exec: string, args: seq<string>, execErrno: Option<string>)
    returns (outcome: Outcome, sent: Option<HttpRequest>)
    ensures ExecRun(outcome, sent) == ExecSpec(kr.entries, f1, f2, reply, environ, characterId, exec, args, execErrno)
  {
    var session := LoadSession(kr, f1);
    if session.Failure? {
      return Failed(session.error, None), None;
    }
    var accounts;
    accounts, sent := Accounts(kr, f2, reply);
    if accounts.Failure? {
      return Failed(accounts.error, None), sent;
    }
    var found := FindAccount(accounts.value, characterId);
    if found.None? {
      return Failed(CharacterNotFound(characterId, AvailableChars(accounts.value)), None), sent;
    }
    var account := found.value;
    var env := environ;
    env := env[SESSION_VAR := session.value.sessionId];
    env := env[CHARACTER_VAR := account.accountId];
    env := env[NAME_VAR := account.displayName];
    var argv := args;
    argv := [exec] + argv;
    var launch := Launch(exec, argv, env);
    if execErrno.None? {
      outcome := Replaced(launch);
    } else {
      outcome := Failed(ExecFailure(exec, execErrno.value), Some(launch));
    }
  }
}
