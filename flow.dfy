/**
 * The message handler of the browser flow: a worker that takes the
 * redirects the navigation handler recognised, one at a time, checks their
 * CSRF state, exchanges the code, remembers the consent state, creates the
 * session and asks the window to load the next page or to close.
 */
module BrowserFlow {
  import opened Wrappers
  import opened Errors
  import opened Env
  import opened Urls
  import opened SessionStore
  import opened Client
  import opened Browser

  const AUTH_STATE_MISMATCH := "Auth state parameter mismatch - possible CSRF attack"
  const CONSENT_STATE_MISMATCH := "Consent state parameter mismatch - possible CSRF attack"
  const NO_CONSENT_STATE := "No consent state found - possible CSRF attack"

  /**
   * What the world answers while one message is handled: the token endpoint's
   * reply, the two fresh UUIDs of the consent URL, the session endpoint's reply,
   * the keyring's faults, and whether the window still accepts events.
   */
  datatype Oracle = Oracle(
    tokenReply: Result<Tokens, string>,
    consentState: string,
    nonce: string,
    sessionReply: Result<Session, string>,
    storeFaults: Faults,
    delivered: bool)

  /** A message taken off the channel, with the answers its handling meets. */
  datatype Arrival = Arrival(message: Message, world: Oracle)

  /**
   * Everything the worker can change: the shared consent-state slot, every
   * event it tried to post to the window, every HTTP request it sent, the
   * keyring's entries and the error that ended the loop, if any.
   */
  datatype Flow = Flow(
    slot: Option<string>,
    posted: seq<CustomEvent>,
    requests: seq<HttpRequest>,
    secrets: Secrets,
    failure: Option<AuthError>)

  datatype Step = Step(result: Result<CustomEvent, AuthError>, flow: Flow)

  /**
   * The first hop: a state that differs from the attempt's is rejected before
   * any request; otherwise the code is exchanged and the consent URL built, and
   * only when both succeed is the consent state remembered.
   */
  function AuthStep(env: Config, f: Flow, code: string, state: string, options: AuthOptions, o: Oracle): (s: Step)
    ensures state != options.state ==> s == Step(Failure(InvalidResponse(AUTH_STATE_MISMATCH)), f)
    ensures state == options.state ==> s.flow.requests == f.requests + [TokenRequest(env, code, options.verifier)]
    ensures s.flow.posted == f.posted && s.flow.secrets == f.secrets && s.flow.failure == f.failure
    ensures s.result.Success? <==> state == options.state && o.tokenReply.Success? && AuthorizeEndpoint(env.origin).Success?
    ensures state == options.state && o.tokenReply.Failure? ==> s.result == Failure(NetworkError(o.tokenReply.error))
    ensures s.result.Failure? ==> s.flow.slot == f.slot
    ensures s.result.Success? ==> s.flow.slot == Some(o.consentState) && s.result.value.LoadUrl?
    ensures s.result.Success? ==> s.result.value.url == CreateConsentUrl(env, o.tokenReply.value.idToken, o.consentState, o.nonce).value.0
  {
    if state != options.state then Step(Failure(InvalidResponse(AUTH_STATE_MISMATCH)), f)
    else
      var exchanged := Token(env, code, options.verifier, o.tokenReply);
      var f1 := f.(requests := f.requests + [exchanged.1]);
      match exchanged.0
      case Failure(e) => Step(Failure(e), f1)
      case Success(tokens) =>
        match CreateConsentUrl(env, tokens.idToken, o.consentState, o.nonce)
        case Failure(e) => Step(Failure(e), f1)
        case Success(consent) => Step(Success(LoadUrl(consent.0)), f1.(slot := Some(consent.1)))
  }

  /**
   * The second hop: acted on only when the slot holds exactly the redirect's
   * state; then the session is created and stored and the window closed. The
   * slot is read and never cleared.
   */
  function ConsentStep(f: Flow, idToken: string, state: string, o: Oracle): (s: Step)
    ensures s.flow.slot == f.slot && s.flow.posted == f.posted && s.flow.failure == f.failure
    ensures f.slot.None? ==> s == Step(Failure(InvalidResponse(NO_CONSENT_STATE)), f)
    ensures f.slot.Some? && f.slot.value != state ==> s == Step(Failure(InvalidResponse(CONSENT_STATE_MISMATCH)), f)
    ensures f.slot == Some(state) ==> s.flow.requests == f.requests + [SessionRequest(idToken)]
    ensures s.result.Success? <==> f.slot == Some(state) && o.sessionReply.Success? && o.storeFaults == NoFaults
    ensures s.result.Success? ==> s.result.value == Close && s.flow.secrets == f.secrets[SESSION_KEY := EncodeSession(o.sessionReply.value)]
    ensures s.result.Failure? ==> s.flow.secrets == f.secrets
  {
    match f.slot
    case None => Step(Failure(InvalidResponse(NO_CONSENT_STATE)), f)
    case Some(expected) =>
      if expected != state then Step(Failure(InvalidResponse(CONSENT_STATE_MISMATCH)), f)
      else
        var c := CreateSessionEffect(f.secrets, idToken, o.sessionReply, o.storeFaults);
        var f1 := f.(requests := f.requests + [c.request], secrets := c.secrets);
        if c.result.Success? then Step(Success(Close), f1) else Step(Failure(c.result.error), f1)
  }

  function Handle(env: Config, f: Flow, a: Arrival): (s: Step)
    ensures s.flow.posted == f.posted && s.flow.failure == f.failure
    ensures s.result.Failure? ==> s.flow.slot == f.slot
    ensures f.requests <= s.flow.requests
  {
    match a.message
    case AuthRedirect(code, state, options) => AuthStep(env, f, code, state, options, a.world)
    case ConsentRedirect(idToken, state) => ConsentStep(f, idToken, state, a.world)
  }

  /** The state after one loop iteration and whether the loop stops there. */
  datatype Turn = Turn(flow: Flow, stop: bool)

  /**
   * One iteration of the worker loop: the handler's event is posted; an error
   * is recorded and Close posted in its place; an event the window no longer
   * takes is followed by Close; either way the loop stops.
   */
  function Advance(env: Config, f: Flow, a: Arrival): (t: Turn)
    ensures f.posted < t.flow.posted && f.requests <= t.flow.requests
    ensures t.stop ==> t.flow.posted[|t.flow.posted| - 1] == Close
    ensures !t.stop ==> |t.flow.posted| == |f.posted| + 1 && t.flow.failure == f.failure
    ensures t.flow.failure != f.failure ==> t.stop && t.flow.failure.Some?
    ensures t.flow.slot != f.slot ==>
      && a.message.AuthRedirect? && a.message.state == a.message.options.state
      && a.world.tokenReply.Success? && t.flow.slot == Some(a.world.consentState)
  {
    AfterHandle(Handle(env, f, a), a.world.delivered)
  }

  /** What the loop does with a handler's outcome: post the event, or record the error and post Close. */
  function AfterHandle(s: Step, delivered: bool): Turn
  {
    match s.result
    case Failure(e) => Turn(s.flow.(posted := s.flow.posted + [Close], failure := Some(e)), true)
    case Success(ev) =>
      if delivered then Turn(s.flow.(posted := s.flow.posted + [ev]), false)
      else Turn(s.flow.(posted := s.flow.posted + [ev, Close]), true)
  }

  /**
   * A handler's outcome keeps what was posted and adds its event; the loop
   * stops exactly on an error or an undelivered event, with Close last.
   */
  lemma AfterHandleOutcome(s: Step, delivered: bool)
    ensures var t := AfterHandle(s, delivered);
      && s.flow.posted < t.flow.posted && t.flow.requests == s.flow.requests && t.flow.slot == s.flow.slot
      && (t.stop <==> (s.result.Failure? || !delivered))
      && (t.stop ==> t.flow.posted[|t.flow.posted| - 1] == Close)
      && (s.result.Failure? ==> t.flow.failure == Some(s.result.error))
      && (s.result.Success? ==> t.flow.posted[|s.flow.posted|] == s.result.value && t.flow.failure == s.flow.failure)
  {
  }

  /** The flow once the final Close is posted. */
  function Closed(f: Flow): Flow
  {
    f.(posted := f.posted + [Close])
  }

  /**
   * A worker loop whose iteration is `step`: the messages in the channel in
   * order, until one stops the loop or none is left, then the final Close.
   */
  function Loop(step: (Flow, Arrival) -> Turn, f: Flow, inbox: seq<Arrival>): Flow
    decreases |inbox|
  {
    if inbox == [] then Closed(f)
    else
      var t := step(f, inbox[0]);
      if t.stop then Closed(t.flow) else Loop(step, t.flow, inbox[1..])
  }

  /** The loop stops before the inbox is exhausted. */
  predicate Halts(step: (Flow, Arrival) -> Turn, f: Flow, inbox: seq<Arrival>)
    decreases |inbox|
  {
    && inbox != []
    && (step(f, inbox[0]).stop || Halts(step, step(f, inbox[0]).flow, inbox[1..]))
  }

  /** The worker's own iteration. */
  function Iteration(env: Config): (Flow, Arrival) -> Turn
  {
    (f, a) => Advance(env, f, a)
  }

  /** The worker loop of the browser flow. */
  function RunSpec(env: Config, f: Flow, inbox: seq<Arrival>): Flow
  {
    Loop(Iteration(env), f, inbox)
  }

  /** A message that does not stop the loop hands the rest of the inbox to the next iteration. */
  lemma RunStep(env: Config, f: Flow, inbox: seq<Arrival>)
    requires inbox != [] && !Advance(env, f, inbox[0]).stop
    ensures RunSpec(env, f, inbox) == RunSpec(env, Advance(env, f, inbox[0]).flow, inbox[1..])
  {
  }

  /** A message that stops the loop is followed only by the final Close. */
  lemma RunHalt(env: Config, f: Flow, inbox: seq<Arrival>)
    requires inbox != [] && Advance(env, f, inbox[0]).stop
    ensures RunSpec(env, f, inbox) == Closed(Advance(env, f, inbox[0]).flow)
  {
  }

  /** Each iteration posts at least one event and keeps the requests already sent. */
  lemma IterationGrows(env: Config)
    ensures forall g: Flow, a: Arrival :: g.posted < Iteration(env)(g, a).flow.posted && g.requests <= Iteration(env)(g, a).flow.requests
  {
  }

  /** The loop keeps every event already posted and adds at least the final Close. */
  lemma {:induction false} LoopKeepsPosted(step: (Flow, Arrival) -> Turn, f: Flow, inbox: seq<Arrival>)
    requires forall g: Flow, a: Arrival :: g.posted <= step(g, a).flow.posted
    ensures f.posted < Loop(step, f, inbox).posted
    decreases |inbox|
  {
    if inbox != [] {
      var t := step(f, inbox[0]);
      if !t.stop {
        LoopKeepsPosted(step, t.flow, inbox[1..]);
      }
    }
  }

  lemma RunKeepsPosted(env: Config, f: Flow, inbox: seq<Arrival>)
    ensures f.posted < RunSpec(env, f, inbox).posted
  {
    IterationGrows(env);
    LoopKeepsPosted(Iteration(env), f, inbox);
  }

  /** The last event the loop posts is Close. */
  lemma {:induction false} LoopEndsWithClose(step: (Flow, Arrival) -> Turn, f: Flow, inbox: seq<Arrival>)
    ensures var p := Loop(step, f, inbox).posted; p != [] && p[|p| - 1] == Close
    decreases |inbox|
  {
    if inbox != [] {
      var t := step(f, inbox[0]);
      if !t.stop {
        LoopEndsWithClose(step, t.flow, inbox[1..]);
      }
    }
  }

  /** The loop only adds requests to those already sent. */
  lemma {:induction false} LoopKeepsRequests(step: (Flow, Arrival) -> Turn, f: Flow, inbox: seq<Arrival>)
    requires forall g: Flow, a: Arrival :: g.requests <= step(g, a).flow.requests
    ensures f.requests <= Loop(step, f, inbox).requests
    decreases |inbox|
  {
    if inbox != [] {
      var t := step(f, inbox[0]);
      if !t.stop {
        LoopKeepsRequests(step, t.flow, inbox[1..]);
      }
    }
  }

  lemma RunKeepsRequests(env: Config, f: Flow, inbox: seq<Arrival>)
    ensures f.requests <= RunSpec(env, f, inbox).requests
  {
    IterationGrows(env);
    LoopKeepsRequests(Iteration(env), f, inbox);
  }

  /** Once the loop has stopped, messages behind the one that stopped it are never handled. */
  lemma {:induction false} HaltIgnoresRest(step: (Flow, Arrival) -> Turn, f: Flow, inbox: seq<Arrival>, later: seq<Arrival>)
    requires Halts(step, f, inbox)
    ensures Loop(step, f, inbox + later) == Loop(step, f, inbox)
    decreases |inbox|
  {
    var all := inbox + later;
    assert all[0] == inbox[0];
    var t := step(f, inbox[0]);
    if !t.stop {
      assert all[1..] == inbox[1..] + later;
      HaltIgnoresRest(step, t.flow, inbox[1..], later);
    }
  }

  /** An iteration that does not stop posts exactly one event and records no error. */
  lemma IterationContinues(env: Config)
    ensures forall g: Flow, a: Arrival :: !Iteration(env)(g, a).stop ==>
      |Iteration(env)(g, a).flow.posted| == |g.posted| + 1 && Iteration(env)(g, a).flow.failure == g.failure
  {
  }

  /** When nothing stops the loop, every message's event is posted, then exactly one Close, and no error is recorded. */
  lemma {:induction false} FullLoopPostsEach(step: (Flow, Arrival) -> Turn, f: Flow, inbox: seq<Arrival>)
    requires forall g: Flow, a: Arrival :: !step(g, a).stop ==> |step(g, a).flow.posted| == |g.posted| + 1 && step(g, a).flow.failure == g.failure
    requires !Halts(step, f, inbox)
    ensures |Loop(step, f, inbox).posted| == |f.posted| + |inbox| + 1
    ensures Loop(step, f, inbox).failure == f.failure
    decreases |inbox|
  {
    if inbox != [] {
      FullLoopPostsEach(step, step(f, inbox[0]).flow, inbox[1..]);
    }
  }

  lemma FullRunPostsEach(env: Config, f: Flow, inbox: seq<Arrival>)
    requires !Halts(Iteration(env), f, inbox)
    ensures |RunSpec(env, f, inbox).posted| == |f.posted| + |inbox| + 1
    ensures RunSpec(env, f, inbox).failure == f.failure
  {
    IterationContinues(env);
    FullLoopPostsEach(Iteration(env), f, inbox);
  }

  /** An iteration records an error only when it stops the loop. */
  lemma IterationFails(env: Config)
    ensures forall g: Flow, a: Arrival :: Iteration(env)(g, a).flow.failure != g.failure ==>
      Iteration(env)(g, a).stop && Iteration(env)(g, a).flow.failure.Some?
  {
  }

  /** An error is recorded only when an iteration failed, and then the loop stopped there. */
  lemma {:induction false} LoopFailureMeansHalted(step: (Flow, Arrival) -> Turn, f: Flow, inbox: seq<Arrival>)
    requires forall g: Flow, a: Arrival :: step(g, a).flow.failure != g.failure ==> step(g, a).stop && step(g, a).flow.failure.Some?
    ensures Loop(step, f, inbox).failure != f.failure ==> Halts(step, f, inbox) && Loop(step, f, inbox).failure.Some?
    decreases |inbox|
  {
    if inbox != [] {
      var t := step(f, inbox[0]);
      if !t.stop {
        LoopFailureMeansHalted(step, t.flow, inbox[1..]);
      }
    }
  }

  lemma FailureMeansHalted(env: Config, f: Flow, inbox: seq<Arrival>)
    ensures RunSpec(env, f, inbox).failure != f.failure ==> Halts(Iteration(env), f, inbox) && RunSpec(env, f, inbox).failure.Some?
  {
    IterationFails(env);
    LoopFailureMeansHalted(Iteration(env), f, inbox);
  }

  /** A first hop whose state matched the attempt's and whose code exchange succeeded. */
  predicate MatchedFirstHop(a: Arrival)
  {
    a.message.AuthRedirect? && a.message.state == a.message.options.state && a.world.tokenReply.Success?
  }

  /** An iteration changes the slot only on a matched first hop, and then to that hop's consent state. */
  lemma IterationSetsSlot(env: Config)
    ensures forall g: Flow, a: Arrival :: Iteration(env)(g, a).flow.slot != g.slot ==>
      MatchedFirstHop(a) && Iteration(env)(g, a).flow.slot == Some(a.world.consentState)
  {
  }

  lemma {:induction false} LoopSetsSlot(step: (Flow, Arrival) -> Turn, f: Flow, inbox: seq<Arrival>)
    requires forall g: Flow, a: Arrival :: step(g, a).flow.slot != g.slot ==> MatchedFirstHop(a) && step(g, a).flow.slot == Some(a.world.consentState)
    ensures Loop(step, f, inbox).slot != f.slot ==>
      exists i :: 0 <= i < |inbox| && MatchedFirstHop(inbox[i]) && Loop(step, f, inbox).slot == Some(inbox[i].world.consentState)
    decreases |inbox|
  {
    if inbox != [] {
      var t := step(f, inbox[0]);
      var r := Loop(step, f, inbox);
      if !t.stop {
        LoopSetsSlot(step, t.flow, inbox[1..]);
        if r.slot != t.flow.slot {
          var j :| 0 <= j < |inbox[1..]| && MatchedFirstHop(inbox[1..][j]) && r.slot == Some(inbox[1..][j].world.consentState);
          assert inbox[1 + j] == inbox[1..][j];
        }
      }
    }
  }

  /** The slot only ever changes to the consent state of a first hop whose state matched and whose exchange succeeded. */
  lemma SlotSetOnlyByAuth(env: Config, f: Flow, inbox: seq<Arrival>)
    ensures RunSpec(env, f, inbox).slot != f.slot ==>
      exists i :: 0 <= i < |inbox| && MatchedFirstHop(inbox[i]) && RunSpec(env, f, inbox).slot == Some(inbox[i].world.consentState)
  {
    IterationSetsSlot(env);
    LoopSetsSlot(Iteration(env), f, inbox);
  }

  /** A consent redirect that arrives before any first hop finds no consent state: nothing is sent or stored. */
  lemma ConsentBeforeAuthRejected(env: Config, f: Flow, inbox: seq<Arrival>)
    requires f.slot.None? && inbox != [] && inbox[0].message.ConsentRedirect?
    ensures RunSpec(env, f, inbox) == f.(posted := f.posted + [Close, Close], failure := Some(InvalidResponse(NO_CONSENT_STATE)))
  {
  }

  /** A first hop with a forged state stops the flow before the code is exchanged. */
  lemma AuthMismatchRejected(env: Config, f: Flow, inbox: seq<Arrival>)
    requires inbox != [] && inbox[0].message.AuthRedirect?
    requires inbox[0].message.state != inbox[0].message.options.state
    ensures RunSpec(env, f, inbox) == f.(posted := f.posted + [Close, Close], failure := Some(InvalidResponse(AUTH_STATE_MISMATCH)))
  {
  }

  /** A matching first hop with a successful exchange remembers the consent state and sends the window to the consent page. */
  lemma AuthHopSucceeds(env: Config, f: Flow, code: string, options: AuthOptions, o: Oracle)
    requires o.tokenReply.Success? && AuthorizeEndpoint(env.origin).Success? && o.delivered
    ensures var t := Advance(env, f, Arrival(AuthRedirect(code, options.state, options), o));
      && !t.stop && t.flow.slot == Some(o.consentState) && t.flow.secrets == f.secrets
      && t.flow.requests == f.requests + [TokenRequest(env, code, options.verifier)]
      && t.flow.posted == f.posted + [LoadUrl(CreateConsentUrl(env, o.tokenReply.value.idToken, o.consentState, o.nonce).value.0)]
  {
  }

  /** A consent redirect carrying the remembered state stores the session and closes the window. */
  lemma ConsentHopSucceeds(f: Flow, env: Config, idToken: string, state: string, o: Oracle)
    requires f.slot == Some(state) && o.sessionReply.Success? && o.storeFaults == NoFaults && o.delivered
    ensures var t := Advance(env, f, Arrival(ConsentRedirect(idToken, state), o));
      && !t.stop && t.flow.slot == f.slot && t.flow.failure == f.failure
      && t.flow.requests == f.requests + [SessionRequest(idToken)]
      && t.flow.secrets == f.secrets[SESSION_KEY := EncodeSession(o.sessionReply.value)]
      && t.flow.posted == f.posted + [Close]
  {
  }

  /** The two hops of the intended run, as the loop takes them. */
  function HappyInbox(code: string, options: AuthOptions, first: Oracle, idToken: string, second: Oracle): seq<Arrival>
  {
    [Arrival(AuthRedirect(code, options.state, options), first), Arrival(ConsentRedirect(idToken, first.consentState), second)]
  }

  /** Two hops that both continue the loop are followed by the final Close. */
  lemma TwoHops(env: Config, f: Flow, inbox: seq<Arrival>)
    requires |inbox| == 2
    requires !Advance(env, f, inbox[0]).stop && !Advance(env, Advance(env, f, inbox[0]).flow, inbox[1]).stop
    ensures var g2 := Advance(env, Advance(env, f, inbox[0]).flow, inbox[1]).flow;
      RunSpec(env, f, inbox) == g2.(posted := g2.posted + [Close])
  {
    var g1 := Advance(env, f, inbox[0]).flow;
    RunStep(env, f, inbox);
    var rest := inbox[1..];
    assert rest[0] == inbox[1];
    RunStep(env, g1, rest);
    assert rest[1..] == [];
  }

  /**
   * The intended run: a matching first hop, then the consent redirect carrying
   * the state it remembered. Both requests are sent in order, the session is
   * stored, and no error is recorded.
   */
  lemma HappyPath(env: Config, f: Flow, code: string, options: AuthOptions, first: Oracle, idToken: string, second: Oracle)
    requires first.tokenReply.Success? && AuthorizeEndpoint(env.origin).Success? && first.delivered
    requires second.sessionReply.Success? && second.storeFaults == NoFaults && second.delivered
    ensures var r := RunSpec(env, f, HappyInbox(code, options, first, idToken, second));
      && r.requests == f.requests + [TokenRequest(env, code, options.verifier), SessionRequest(idToken)]
      && r.secrets == f.secrets[SESSION_KEY := EncodeSession(second.sessionReply.value)]
      && r.slot == Some(first.consentState)
      && r.failure == f.failure
  {
    var inbox := HappyInbox(code, options, first, idToken, second);
    AuthHopSucceeds(env, f, code, options, first);
    var g1 := Advance(env, f, inbox[0]).flow;
    ConsentHopSucceeds(g1, env, idToken, first.consentState, second);
    TwoHops(env, f, inbox);
    AppendTwo(f.requests, TokenRequest(env, code, options.verifier), SessionRequest(idToken));
  }

  /** After the intended run the stored session reads back as the one the session endpoint returned. */
  lemma HappyPathStored(env: Config, f: Flow, code: string, options: AuthOptions, first: Oracle, idToken: string, second: Oracle)
    requires first.tokenReply.Success? && AuthorizeEndpoint(env.origin).Success? && first.delivered
    requires second.sessionReply.Success? && second.storeFaults == NoFaults && second.delivered
    ensures LoadResult(RunSpec(env, f, HappyInbox(code, options, first, idToken, second)).secrets, NoFaults) == Success(Some(second.sessionReply.value))
  {
    HappyPath(env, f, code, options, first, idToken, second);
    StoreThenLoad(f.secrets, second.sessionReply.value, NoFaults);
  }

  /** In the intended run the window is sent to the consent page, then closed twice: once by the handler, once when the loop ends. */
  lemma HappyPathEvents(env: Config, f: Flow, code: string, options: AuthOptions, first: Oracle, idToken: string, second: Oracle)
    requires first.tokenReply.Success? && AuthorizeEndpoint(env.origin).Success? && first.delivered
    requires second.sessionReply.Success? && second.storeFaults == NoFaults && second.delivered
    ensures RunSpec(env, f, HappyInbox(code, options, first, idToken, second)).posted ==
      f.posted + [LoadUrl(CreateConsentUrl(env, first.tokenReply.value.idToken, first.consentState, first.nonce).value.0), Close, Close]
  {
    var inbox := HappyInbox(code, options, first, idToken, second);
    AuthHopSucceeds(env, f, code, options, first);
    var g1 := Advance(env, f, inbox[0]).flow;
    ConsentHopSucceeds(g1, env, idToken, first.consentState, second);
    TwoHops(env, f, inbox);
    var load := LoadUrl(CreateConsentUrl(env, first.tokenReply.value.idToken, first.consentState, first.nonce).value.0);
    AppendThree(f.posted, load, Close, Close);
  }

  lemma AppendTwo<T>(a: seq<T>, x: T, y: T)
    ensures a + [x] + [y] == a + [x, y]
  {
  }

  lemma AppendThree<T>(a: seq<T>, x: T, y: T, z: T)
    ensures a + [x] + [y] + [z] == a + [x, y, z]
  {
  }

  /** The worker thread, with the consent-state slot it shares with the handlers. */
  class Worker {
    const env: Config
    const keyring: Keyring
    var slot: Option<string>
    var posted: seq<CustomEvent>
    var requests: seq<HttpRequest>
    var failure: Option<AuthError>

    constructor (env: Config, keyring: Keyring)
      ensures this.env == env && this.keyring == keyring
      ensures slot == None && posted == [] && requests == [] && failure == None
    {
      this.env := env;
      this.keyring := keyring;
      slot := None;
      posted := [];
      requests := [];
      failure := None;
    }

    function Snapshot(): Flow
      reads this, keyring
    {
      Flow(slot, posted, requests, keyring.entries, failure)
    }

    method HandleAuthRedirect(code: string, state: string, options: AuthOptions, o: Oracle)
      returns (r: Result<CustomEvent, AuthError>)
      modifies this
      ensures Step(r, Snapshot()) == AuthStep(env, old(Snapshot()), code, state, options, o)
    {
      if state != options.state {
        return Failure(InvalidResponse(AUTH_STATE_MISMATCH));
      }
      ghost var before := Snapshot();
      var exchanged := Token(env, code, options.verifier, o.tokenReply);
      requests := requests + [exchanged.1];
      ghost var f1 := before.(requests := before.requests + [exchanged.1]);
      assert Snapshot() == f1;
      var tokens :- exchanged.0;
      var consent :- BuildConsentUrl(env, tokens.idToken, o.consentState, o.nonce);
      slot := Some(consent.1);
      return Success(LoadUrl(consent.0));
    }

    method HandleConsentRedirect(idToken: string, state: string, o: Oracle)
      returns (r: Result<CustomEvent, AuthError>)
      modifies this, keyring
      ensures Step(r, Snapshot()) == ConsentStep(old(Snapshot()), idToken, state, o)
    {
      match slot
      case None =>
        r := Failure(InvalidResponse(NO_CONSENT_STATE));
      case Some(expected) =>
        if expected != state {
          r := Failure(InvalidResponse(CONSENT_STATE_MISMATCH));
        } else {
          var created, sent := CreateSession(keyring, idToken, o.sessionReply, o.storeFaults);
          requests := requests + [sent];
          r := if created.Success? then Success(Close) else Failure(created.error);
        }
    }

    /** Hands the message to the handler for its hop. */
    method Dispatch(a: Arrival) returns (r: Result<CustomEvent, AuthError>)
      modifies this, keyring
      ensures Step(r, Snapshot()) == Handle(env, old(Snapshot()), a)
    {
      match a.message {
        case AuthRedirect(code, state, options) =>
          r := HandleAuthRedirect(code, state, options, a.world);
        case ConsentRedirect(idToken, state) =>
          r := HandleConsentRedirect(idToken, state, a.world);
      }
    }

    /** One iteration of the loop: handle the message, post its event or record its error. */
    method Deliver(a: Arrival) returns (stop: bool)
      modifies this, keyring
      ensures Turn(Snapshot(), stop) == Advance(env, old(Snapshot()), a)
    {
      var r := Dispatch(a);
      ghost var handled := Step(r, Snapshot());
      assert Advance(env, old(Snapshot()), a) == AfterHandle(handled, a.world.delivered);
      match r {
        case Failure(e) =>
          failure := Some(e);
          posted := posted + [Close];
          stop := true;
        case Success(ev) =>
          posted := posted + [ev];
          stop := !a.world.delivered;
          if stop {
            posted := posted + [Close];
          }
      }
    }

    /** Drains the inbox in order, as RunSpec describes. */
    method Run(inbox: seq<Arrival>)
      modifies this, keyring
      ensures Snapshot() == RunSpec(env, old(Snapshot()), inbox)
    {
      ghost var goal := RunSpec(env, Snapshot(), inbox);
      var i := 0;
      var stopped := false;
      while i < |inbox| && !stopped
        invariant 0 <= i <= |inbox|
        invariant !stopped ==> RunSpec(env, Snapshot(), inbox[i..]) == goal
        invariant stopped ==> Snapshot().(posted := posted + [Close]) == goal
        decreases |inbox| - i, if stopped then 0 else 1
      {
        assert inbox[i..][0] == inbox[i] && inbox[i..][1..] == inbox[i + 1..];
        stopped := Deliver(inbox[i]);
        if !stopped {
          i := i + 1;
        }
      }
      posted := posted + [Close];
    }
  }
}
