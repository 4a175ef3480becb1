/**
 * The consent-management middleware (index.js:176-235). Every request that
 * reaches the application passes through it first. It acts on the
 * `x-gigya-consent` decision header when one is present, lets the request
 * through when the session already records consent, and otherwise fetches
 * the user's consent profile from the authority to decide between granting
 * implicitly and serving the consent page.
 *
 * `Decide` states the whole effect of one request as a value: the new
 * session fields, the authority requests made, and the response.
 * `HandleRequest` is the middleware itself, working step by step on a
 * `Session` object, and is proved to have exactly that effect.
 */
module ConsentMiddleware {
  import opened JsValue
  import opened GigyaClient

  const AcceptDecision := "accept"
  const DeclineDecision := "decline"
  /** The body of the consent submission. */
  const GrantPayload := "{\"isConsentGranted\": true}"

  /** What the host supplies about one request. */
  datatype Incoming = Incoming(
    consentHeader: Option<string>, // `req.headers['x-gigya-consent']`
    userId: string,                // `req.user.id`
    logoutEndpoint: string)        // `req.routerConfig.appConfig.logout.logoutEndpoint`

  /** The rendered consent page, known only by the document it embeds. */
  datatype Body = ConsentPage(documentUrl: string)

  /** How the middleware finishes: `next()`, or the response it ends itself. */
  datatype Outcome =
    | Next
    | End(status: int, location: Option<string>, body: Option<Body>)

  const NoContent := End(204, None, None)
  const ServerError := End(500, None, None)

  /** The two session fields the middleware reads and writes. */
  datatype SessionState = SessionState(granted: Value, profile: Value)

  /** The effect of one request: new session fields, authority requests sent in order, the outcome. */
  datatype Step = Step(session: SessionState, calls: seq<AuthorityRequest>, outcome: Outcome)

  function ConfigPath(userId: string): string {
    "/consent/config?userId=" + userId
  }

  function ProfilePath(userId: string): string {
    "/consent/profile?userId=" + userId
  }

  /** The consent submission: POST `/consent/config?userId=<id>` with the grant payload. */
  function SubmitRequest(host: string, userId: string): AuthorityRequest {
    AuthorityRequest(Post, host + ConfigPath(userId), Some(GrantPayload))
  }

  /** The profile fetch: GET `/consent/profile?userId=<id>`. */
  function ProfileRequest(host: string, userId: string): AuthorityRequest {
    AuthorityRequest(Get, host + ProfilePath(userId), None)
  }

  /** A header value that `if (req.headers[...])` accepts: present and not empty. */
  predicate HeaderPresent(header: Option<string>) {
    header.Some? && header.value != ""
  }

  predicate IsDecision(header: Option<string>) {
    header == Some(AcceptDecision) || header == Some(DeclineDecision)
  }

  /** `consentPage(req.user, profile.documentUrl)` returns: String() can convert the document reference. */
  predicate PageRenders(profile: Value)
    requires !IsNullish(profile)
  {
    Stringifiable(Prop(profile, "documentUrl"))
  }

  /** The page served when consent must be asked for: `consentPage(req.user, profile.documentUrl)`. */
  function ConsentPageFor(profile: Value): (page: Body)
    requires !IsNullish(profile) && PageRenders(profile)
    ensures Prop(profile, "documentUrl").Str? ==> page.documentUrl == Prop(profile, "documentUrl").s
  {
    ConsentPage(ToJsString(Prop(profile, "documentUrl")))
  }

  /**
   * How `consentPage(req.user, profile.documentUrl)` fares for each kind of
   * document reference: a string is embedded as it is; null, undefined,
   * numbers and booleans as their String() forms; an object renders as
   * "[object Object]" unless an own `toString` member makes String() throw;
   * an array renders when every element that is not null or undefined does.
   */
  lemma DocumentUrlRendering(profile: Value)
    requires !IsNullish(profile)
    ensures var d := Prop(profile, "documentUrl");
            && (d.Str? ==> PageRenders(profile) && ConsentPageFor(profile) == ConsentPage(d.s))
            && (d.Undefined? ==> PageRenders(profile) && ConsentPageFor(profile) == ConsentPage("undefined"))
            && (d.Null? ==> PageRenders(profile) && ConsentPageFor(profile) == ConsentPage("null"))
            && (d.Obj? ==> (PageRenders(profile) <==> !HasOwn(d, "toString")))
            && (d.Obj? && PageRenders(profile) ==> ConsentPageFor(profile) == ConsentPage("[object Object]"))
            && (d.Num? ==> PageRenders(profile) && ConsentPageFor(profile) == ConsentPage(IntToDecimal(d.n)))
            && (d.Bool? ==> PageRenders(profile) && ConsentPageFor(profile) == ConsentPage(if d.b then "true" else "false"))
            && (d.Arr? ==> (PageRenders(profile) <==>
                  forall k :: 0 <= k < |d.items| ==> IsNullish(d.items[k]) || Stringifiable(d.items[k])))
            && (d.Arr? && |d.items| == 0 ==> ConsentPageFor(profile) == ConsentPage(""))
            && (d.Arr? && |d.items| == 1 && d.items[0].Str? ==> ConsentPageFor(profile) == ConsentPage(d.items[0].s))
            && (d.Arr? && |d.items| == 1 && IsNullish(d.items[0]) ==> ConsentPageFor(profile) == ConsentPage(""))
  {
    var d := Prop(profile, "documentUrl");
    if d.Arr? && |d.items| == 1 {
      var parts := seq(|d.items|, k requires 0 <= k < |d.items| =>
                         if IsNullish(d.items[k]) then "" else ToJsString(d.items[k]));
      assert parts == [if IsNullish(d.items[0]) then "" else ToJsString(d.items[0])];
    }
  }

  /**
   * An array `documentUrl` is rendered as its elements joined by commas, a
   * null element contributing nothing: `["a", null, "b"]` gives "a,,b".
   */
  lemma ArrayDocumentUrlJoins()
    ensures var profile := Obj(map["documentUrl" := Arr([Str("a"), Null, Str("b")])]);
            PageRenders(profile) && ConsentPageFor(profile) == ConsentPage("a,,b")
  {
    var items := [Str("a"), Null, Str("b")];
    var parts := seq(|items|, k requires 0 <= k < |items| =>
                       if IsNullish(items[k]) then "" else ToJsString(items[k]));
    assert parts == ["a", "", "b"];
    assert parts[1..] == ["", "b"] && parts[1..][1..] == ["b"];
    assert JoinCommas(["", "b"]) == ",b";
    assert JoinCommas(parts) == "a" + "," + ",b" == "a,,b";
  }

  /**
   * The effect of one pass through the middleware, given the session fields
   * before it and the authority's answer to each request it could send.
   * Every exception, whichever step raises it, ends in an empty 500. All
   * of them are raised before any session field is written, except a page
   * that fails to render: that happens after the profile is cached.
   */
  function Decide(host: string, req: Incoming, s: SessionState, respond: AuthorityRequest -> Transport): (step: Step)
    ensures |step.calls| <= 1
    ensures step.session.granted == s.granted || step.session.granted == Bool(true)
    ensures step.session.profile != s.profile ==> |step.calls| == 1 && step.calls[0] == ProfileRequest(host, req.userId)
    ensures step.outcome.End? ==> step.outcome.status in {200, 204, 500}
  {
    if req.consentHeader == Some(AcceptDecision) then
      var call := SubmitRequest(host, req.userId);
      if Interpret(respond(call)).Err? then Step(s, [call], ServerError)
      else Step(s.(granted := Bool(true)), [call], NoContent)
    else if req.consentHeader == Some(DeclineDecision) then
      if IsNullish(s.profile) then Step(s, [], ServerError)  // reading `.isRequired` throws
      else if Prop(s.profile, "isRequired") == Str("true") then
        Step(s, [], End(204, Some(req.logoutEndpoint), None))
      else Step(s.(granted := Bool(true)), [], NoContent)
    else if Truthy(s.granted) then Step(s, [], Next)
    else
      var call := ProfileRequest(host, req.userId);
      match Interpret(respond(call))
      case Err(_) => Step(s, [call], ServerError)
      case Ok(profile) =>
        if Truthy(Prop(profile, "isLoginEnabled")) then Step(SessionState(Bool(true), profile), [call], Next)
        else if !PageRenders(profile) then Step(s.(profile := profile), [call], ServerError)
        else Step(s.(profile := profile), [call], End(200, None, Some(ConsentPageFor(profile))))
  }

  /** The session object the host keeps per user; only the two consent fields are modelled. */
  class Session {
    var gigyaConsentGranted: Value
    var gigyaProfile: Value

    /** A session the middleware has never written to. */
    constructor ()
      ensures gigyaConsentGranted == Undefined && gigyaProfile == Undefined
    {
      gigyaConsentGranted := Undefined;
      gigyaProfile := Undefined;
    }

    function State(): SessionState
      reads this
    {
      SessionState(gigyaConsentGranted, gigyaProfile)
    }
  }

  /**
   * `consentManagementMiddleware(req, res, next)`, with the result of
   * `gigya(...)` standing for its `await` and an early `return` standing for
   * each exception caught by the surrounding `try`.
   */
  method HandleRequest(host: string, req: Incoming, session: Session, authority: Authority)
    returns (outcome: Outcome)
    modifies session, authority`log
    ensures var step := Decide(host, req, old(session.State()), authority.respond);
            && session.State() == step.session
            && authority.log == old(authority.log) + step.calls
            && outcome == step.outcome
  {
    if HeaderPresent(req.consentHeader) {
      if req.consentHeader.value == AcceptDecision {
        var saved := Gigya(authority, host, ConfigPath(req.userId), Post, Some(GrantPayload));
        if saved.Err? {
          return ServerError;
        }
        session.gigyaConsentGranted := Bool(true);
        return NoContent;
      } else if req.consentHeader.value == DeclineDecision {
        if IsNullish(session.gigyaProfile) {
          return ServerError;
        }
        if Prop(session.gigyaProfile, "isRequired") == Str("true") {
          return End(204, Some(req.logoutEndpoint), None);
        } else {
          session.gigyaConsentGranted := Bool(true);
          return NoContent;
        }
      }
    }

    if Truthy(session.gigyaConsentGranted) {
      return Next;
    }

    var fetched := Gigya(authority, host, ProfilePath(req.userId), Get, None);
    if fetched.Err? {
      return ServerError;
    }
    var profile := fetched.value;
    session.gigyaProfile := profile;
    if Truthy(Prop(profile, "isLoginEnabled")) {
      session.gigyaConsentGranted := Bool(true);
      return Next;
    }
    if !PageRenders(profile) {
      return ServerError;
    }
    return End(200, None, Some(ConsentPageFor(profile)));
  }

  // ---------------------------------------------------------------------------
  // Properties of one request
  // ---------------------------------------------------------------------------

  /**
   * A decision header is acted on before the session's grant flag is looked
   * at: the request ends with a response of its own, and which response and
   * which authority calls does not depend on the flag.
   */
  lemma DecisionHeaderComesFirst(host: string, req: Incoming, s: SessionState, granted: Value,
                                 respond: AuthorityRequest -> Transport)
    requires IsDecision(req.consentHeader)
    ensures Decide(host, req, s, respond).outcome != Next
    ensures Decide(host, req, s, respond).outcome == Decide(host, req, s.(granted := granted), respond).outcome
    ensures Decide(host, req, s, respond).calls == Decide(host, req, s.(granted := granted), respond).calls
  {
  }

  /** A header that is absent, empty or neither `accept` nor `decline` changes nothing: the request takes the normal path. */
  lemma OtherHeaderFallsThrough(host: string, req: Incoming, s: SessionState, respond: AuthorityRequest -> Transport)
    requires !IsDecision(req.consentHeader)
    ensures Decide(host, req, s, respond) == Decide(host, req.(consentHeader := None), s, respond)
  {
  }

  /**
   * Accept: the submission is sent exactly once; when it succeeds the grant
   * flag becomes true and the answer is an empty 204; when it fails the
   * session is untouched and the answer is 500.
   */
  lemma AcceptSubmitsOnce(host: string, req: Incoming, s: SessionState, respond: AuthorityRequest -> Transport)
    requires req.consentHeader == Some(AcceptDecision)
    ensures var step := Decide(host, req, s, respond);
            && step.calls == [SubmitRequest(host, req.userId)]
            && step.calls[0].verb == Post && step.calls[0].payload == Some(GrantPayload)
            && (Interpret(respond(step.calls[0])).Ok? ==>
                  step.session == s.(granted := Bool(true)) && step.outcome == NoContent)
            && (Interpret(respond(step.calls[0])).Err? ==>
                  step.session == s && step.outcome == ServerError)
  {
  }

  /**
   * Decline when the cached profile says consent is required (`isRequired`
   * is the string "true"): 204 redirecting to the logout endpoint, no
   * session change, no authority call.
   */
  lemma BlockingDeclineLogsOut(host: string, req: Incoming, s: SessionState, respond: AuthorityRequest -> Transport)
    requires req.consentHeader == Some(DeclineDecision)
    requires !IsNullish(s.profile) && Prop(s.profile, "isRequired") == Str("true")
    ensures Decide(host, req, s, respond) == Step(s, [], End(204, Some(req.logoutEndpoint), None))
  {
  }

  /**
   * Decline with any other `isRequired` (a boolean true included): the grant
   * flag becomes true and the answer is 204 with no redirect. Declining with
   * no cached profile fails with 500.
   */
  lemma NonBlockingDeclineGrants(host: string, req: Incoming, s: SessionState, respond: AuthorityRequest -> Transport)
    requires req.consentHeader == Some(DeclineDecision)
    ensures !IsNullish(s.profile) && Prop(s.profile, "isRequired") != Str("true") ==>
              Decide(host, req, s, respond) == Step(s.(granted := Bool(true)), [], NoContent)
    ensures IsNullish(s.profile) ==> Decide(host, req, s, respond) == Step(s, [], ServerError)
  {
  }

  /** With no decision and a truthy grant flag the request passes straight through: no call, no change. */
  lemma GrantedPassesThrough(host: string, req: Incoming, s: SessionState, respond: AuthorityRequest -> Transport)
    requires !IsDecision(req.consentHeader) && Truthy(s.granted)
    ensures Decide(host, req, s, respond) == Step(s, [], Next)
  {
  }

  /**
   * Otherwise the profile is fetched once and cached. A truthy
   * `isLoginEnabled` grants and passes through; anything else serves the
   * consent page for the profile's document and leaves the flag alone, or
   * answers 500 when the document reference cannot be converted to a string.
   */
  lemma FetchDecides(host: string, req: Incoming, s: SessionState, respond: AuthorityRequest -> Transport)
    requires !IsDecision(req.consentHeader) && !Truthy(s.granted)
    ensures var step := Decide(host, req, s, respond);
            var fetched := Interpret(respond(ProfileRequest(host, req.userId)));
            && step.calls == [ProfileRequest(host, req.userId)]
            && (fetched.Err? ==> step.session == s && step.outcome == ServerError)
            && (fetched.Ok? ==> step.session.profile == fetched.value)
            && (fetched.Ok? && Truthy(Prop(fetched.value, "isLoginEnabled")) ==>
                  step.session.granted == Bool(true) && step.outcome == Next)
            && (fetched.Ok? && !Truthy(Prop(fetched.value, "isLoginEnabled")) ==>
                  step.session.granted == s.granted)
            && (fetched.Ok? && !Truthy(Prop(fetched.value, "isLoginEnabled")) && PageRenders(fetched.value) ==>
                  step.outcome == End(200, None, Some(ConsentPage(ToJsString(Prop(fetched.value, "documentUrl"))))))
            && (fetched.Ok? && !Truthy(Prop(fetched.value, "isLoginEnabled")) && !PageRenders(fetched.value) ==>
                  step.outcome == ServerError)
  {
  }

  /**
   * The page for a fetched profile fails to render: the fetch succeeded, the
   * profile does not enable login, and String() cannot convert its
   * `documentUrl`.
   */
  predicate RenderFails(host: string, req: Incoming, s: SessionState, respond: AuthorityRequest -> Transport) {
    && !IsDecision(req.consentHeader) && !Truthy(s.granted)
    && var fetched := Interpret(respond(ProfileRequest(host, req.userId)));
       fetched.Ok? && !Truthy(Prop(fetched.value, "isLoginEnabled")) && !PageRenders(fetched.value)
  }

  /**
   * Every failure ends the same way: an empty 500 and no `next()`. A 500
   * arises only from a failed authority call, a decline with no cached
   * profile, or a page that fails to render. The grant flag never changes
   * on a failure, and the rest of the session changes only when the page
   * fails to render, by caching the profile fetched just before.
   */
  lemma FailureChangesNothing(host: string, req: Incoming, s: SessionState, respond: AuthorityRequest -> Transport)
    ensures var step := Decide(host, req, s, respond);
            && (step.outcome.End? && step.outcome.status == 500 ==>
                  step.outcome == ServerError && step.session.granted == s.granted)
            && (step.outcome == ServerError && step.session != s ==>
                  RenderFails(host, req, s, respond) &&
                  step.session == s.(profile := respond(ProfileRequest(host, req.userId)).json))
            && (step.outcome == ServerError <==>
                  (|step.calls| == 1 && Interpret(respond(step.calls[0])).Err?) ||
                  (req.consentHeader == Some(DeclineDecision) && IsNullish(s.profile)) ||
                  RenderFails(host, req, s, respond))
  {
  }

  /** The request is let through only when the session ends up recording consent. */
  lemma PassThroughMeansGranted(host: string, req: Incoming, s: SessionState, respond: AuthorityRequest -> Transport)
    ensures Decide(host, req, s, respond).outcome == Next ==> Truthy(Decide(host, req, s, respond).session.granted)
  {
  }

  /**
   * One of the three ways consent can be given in a request: an accepted
   * submission, a decline the cached profile does not block, or a fetched
   * profile with a truthy `isLoginEnabled`.
   */
  predicate ConsentGiven(host: string, req: Incoming, s: SessionState, respond: AuthorityRequest -> Transport) {
    || (req.consentHeader == Some(AcceptDecision) &&
        Interpret(respond(SubmitRequest(host, req.userId))).Ok?)
    || (req.consentHeader == Some(DeclineDecision) &&
        !IsNullish(s.profile) && Prop(s.profile, "isRequired") != Str("true"))
    || (!IsDecision(req.consentHeader) && !Truthy(s.granted) &&
        var fetched := Interpret(respond(ProfileRequest(host, req.userId)));
        fetched.Ok? && Truthy(Prop(fetched.value, "isLoginEnabled")))
  }

  /**
   * The grant flag is only ever set to true, and it is set exactly when
   * consent is given in this request.
   */
  lemma GrantOnlyOnConsent(host: string, req: Incoming, s: SessionState, respond: AuthorityRequest -> Transport)
    ensures var granted := Decide(host, req, s, respond).session.granted;
            && (granted == s.granted || granted == Bool(true))
            && (granted != s.granted ==> ConsentGiven(host, req, s, respond))
            && (ConsentGiven(host, req, s, respond) ==> granted == Bool(true))
  {
  }

  // ---------------------------------------------------------------------------
  // Properties of a session over many requests
  // ---------------------------------------------------------------------------

  /** The session fields after a sequence of requests, each answered by its own authority responses. */
  function Run(host: string, reqs: seq<Incoming>, s: SessionState,
               responders: seq<AuthorityRequest -> Transport>): SessionState
    requires |reqs| == |responders|
    decreases |reqs|
  {
    if |reqs| == 0 then s
    else Run(host, reqs[1..], Decide(host, reqs[0], s, responders[0]).session, responders[1..])
  }

  /**
   * A session whose grant flag was not truthy records consent after a
   * sequence of requests only if, at some request, consent was given while
   * the flag was still not truthy.
   */
  lemma {:induction false} GrantTracesToConsent(host: string, reqs: seq<Incoming>, s: SessionState,
                                                responders: seq<AuthorityRequest -> Transport>)
    requires |reqs| == |responders|
    requires !Truthy(s.granted) && Truthy(Run(host, reqs, s, responders).granted)
    ensures exists i :: 0 <= i < |reqs| &&
              var before := Run(host, reqs[..i], s, responders[..i]);
              !Truthy(before.granted) && ConsentGiven(host, reqs[i], before, responders[i])
  {
    var next := Decide(host, reqs[0], s, responders[0]).session;
    GrantOnlyOnConsent(host, reqs[0], s, responders[0]);
    if Truthy(next.granted) {
      assert Run(host, reqs[..0], s, responders[..0]) == s;
    } else {
      GrantTracesToConsent(host, reqs[1..], next, responders[1..]);
      var i :| 0 <= i < |reqs| - 1 &&
               var before := Run(host, reqs[1..][..i], next, responders[1..][..i]);
               !Truthy(before.granted) && ConsentGiven(host, reqs[1..][i], before, responders[1..][i]);
      assert reqs[..i + 1][1..] == reqs[1..][..i];
      assert responders[..i + 1][1..] == responders[1..][..i];
      assert Run(host, reqs[..i + 1], s, responders[..i + 1]) == Run(host, reqs[1..][..i], next, responders[1..][..i]);
    }
  }

  /**
   * Once a consent profile requiring consent is cached, declining any number
   * of times leaves the session exactly as it was, so a flag not yet set
   * stays unset.
   */
  lemma {:induction false} RepeatedBlockingDeclinesNeverGrant(host: string, reqs: seq<Incoming>, s: SessionState,
                                                              responders: seq<AuthorityRequest -> Transport>)
    requires |reqs| == |responders|
    requires forall k :: 0 <= k < |reqs| ==> reqs[k].consentHeader == Some(DeclineDecision)
    requires !IsNullish(s.profile) && Prop(s.profile, "isRequired") == Str("true")
    ensures Run(host, reqs, s, responders) == s
  {
    if |reqs| > 0 {
      BlockingDeclineLogsOut(host, reqs[0], s, responders[0]);
      RepeatedBlockingDeclinesNeverGrant(host, reqs[1..], s, responders[1..]);
    }
  }

  // ---------------------------------------------------------------------------
  // A walk through one user's first requests
  // ---------------------------------------------------------------------------

  /** The profile the authority returns for "u1": consent required, not yet given. */
  function U1Profile(): Value {
    Obj(map["isLoginEnabled" := Bool(false), "isRequired" := Str("true"), "documentUrl" := Str("https://x/doc.pdf")])
  }

  /**
   * A fresh session for "u1" is served the consent page for the profile's
   * document and caches the profile; declining then redirects to logout and
   * the flag stays unset.
   */
  lemma ConsentRequiredScenario(host: string, logout: string)
    ensures var respond := (r: AuthorityRequest) => Received(U1Profile());
            var initial := SessionState(Undefined, Undefined);
            var first := Decide(host, Incoming(None, "u1", logout), initial, respond);
            var second := Decide(host, Incoming(Some(DeclineDecision), "u1", logout), first.session, respond);
            && first.outcome == End(200, None, Some(ConsentPage("https://x/doc.pdf")))
            && first.session == SessionState(Undefined, U1Profile())
            && second.outcome == End(204, Some(logout), None)
            && second.session.granted == Undefined
  {
    var p := U1Profile();
    assert Prop(p, "isLoginEnabled") == Bool(false);
    assert Prop(p, "documentUrl") == Str("https://x/doc.pdf");
    assert Prop(p, "isRequired") == Str("true");
  }

  /** An authority that reports `isLoginEnabled: true` lets a fresh session through and grants. */
  lemma LoginEnabledScenario(host: string, logout: string)
    ensures var profile := Obj(map["isLoginEnabled" := Bool(true)]);
            var step := Decide(host, Incoming(None, "u1", logout), SessionState(Undefined, Undefined),
                               (r: AuthorityRequest) => Received(profile));
            step.outcome == Next && step.session == SessionState(Bool(true), profile)
  {
    var profile := Obj(map["isLoginEnabled" := Bool(true)]);
    assert Prop(profile, "isLoginEnabled") == Bool(true);
  }

  /** An error envelope from the authority ends in an empty 500 and leaves a fresh session fresh. */
  lemma AuthorityErrorScenario(host: string, logout: string)
    ensures var envelope := Obj(map["error" := Str("invalid_key"), "message" := Str("bad key")]);
            var initial := SessionState(Undefined, Undefined);
            var step := Decide(host, Incoming(None, "u1", logout), initial,
                               (r: AuthorityRequest) => Received(envelope));
            step.outcome == ServerError && step.session == initial
  {
    var envelope := Obj(map["error" := Str("invalid_key"), "message" := Str("bad key")]);
    assert HasOwn(envelope, "error");
  }

  /**
   * A profile whose `documentUrl` String() cannot convert is cached first;
   * rendering the page then throws and the answer is an empty 500.
   */
  lemma UnrenderablePageScenario(host: string, logout: string)
    ensures var profile := Obj(map["isLoginEnabled" := Bool(false), "documentUrl" := Obj(map["toString" := Num(0)])]);
            var initial := SessionState(Undefined, Undefined);
            var step := Decide(host, Incoming(None, "u1", logout), initial,
                               (r: AuthorityRequest) => Received(profile));
            step.outcome == ServerError && step.session == SessionState(Undefined, profile)
  {
    var profile := Obj(map["isLoginEnabled" := Bool(false), "documentUrl" := Obj(map["toString" := Num(0)])]);
    assert Prop(profile, "isLoginEnabled") == Bool(false);
    assert Prop(profile, "documentUrl") == Obj(map["toString" := Num(0)]);
    assert !PageRenders(profile);
  }
}
