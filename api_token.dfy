/** The Next.js token endpoint (`pages/api/token.ts`): a chain of early-return
    guards (method, request fields, server configuration) that ends in a
    signed, room-scoped grant and exactly one JSON response. The SDK's
    signer is the oracle `sign`; the environment is the `ServerEnv` value. */
module ApiToken {
  import opened TokenCommon

  const MethodNotAllowed := "Method not allowed"
  const MissingFields := "Missing roomName or participantName"
  const ConfigurationError := "Server configuration error"
  const SigningError := "Failed to generate token"

  /** The two fields read from `req.body`; `None` when the field is absent
      or `null`. */
  datatype RequestBody = RequestBody(roomName: Option<string>, participantName: Option<string>)

  /** `LIVEKIT_API_KEY`, `LIVEKIT_API_SECRET` and `NEXT_PUBLIC_LIVEKIT_URL`
      as read from the process environment at request time. */
  datatype ServerEnv = ServerEnv(apiKey: Option<string>, apiSecret: Option<string>, wsUrl: Option<string>)

  /** Exactly what the handler asks the SDK to sign: the key and secret and
      the `identity`/`name` options given to `new AccessToken`, and the
      grant given to `addGrant`. */
  datatype Grant = Grant(apiKey: string, apiSecret: string, identity: string, name: string, video: VideoGrant)

  datatype ResponseBody = ErrorBody(error: string) | TokenBody(token: string, wsUrl: string)

  datatype Response = Response(status: int, body: ResponseBody)

  /** The single response the handler sends, and the grant it handed to
      the signer (`None` when it never got that far). */
  datatype Outcome = Outcome(response: Response, submitted: Option<Grant>)

  predicate IsPost(httpMethod: Option<string>) {
    httpMethod == Some("POST")
  }

  /** Both request fields are truthy. */
  predicate FieldsPresent(body: RequestBody) {
    !Falsy(body.roomName) && !Falsy(body.participantName)
  }

  /** Key, secret and public URL are all configured and non-empty. */
  predicate ConfigPresent(env: ServerEnv) {
    !Falsy(env.apiKey) && !Falsy(env.apiSecret) && !Falsy(env.wsUrl)
  }

  /** The shape of every grant this endpoint can issue: one room, one
      participant who is both identity and display name, and the four
      permissions all switched on. */
  predicate WellFormedGrant(g: Grant) {
    && g.apiKey != "" && g.apiSecret != ""
    && g.identity != "" && g.name == g.identity
    && g.video.room != ""
    && g.video.roomJoin && g.video.canPublish && g.video.canSubscribe && g.video.canPublishData
  }

  function Reject(status: int, error: string): Outcome {
    Outcome(Response(status, ErrorBody(error)), None)
  }

  /** The request handler. `httpMethod` is `req.method` (`None` when undefined). */
  function Handler(httpMethod: Option<string>, body: RequestBody, env: ServerEnv,
                   sign: Grant -> SignOutcome): (o: Outcome)
    // The method guard wins over everything else.
    ensures !IsPost(httpMethod) ==> o == Reject(405, MethodNotAllowed)
    // The field guard comes before the configuration guard.
    ensures IsPost(httpMethod) && !FieldsPresent(body) ==> o == Reject(400, MissingFields)
    ensures IsPost(httpMethod) && FieldsPresent(body) && !ConfigPresent(env) ==>
              o == Reject(500, ConfigurationError)
    // Signing is attempted exactly when all three guards pass.
    ensures o.submitted.Some? <==> IsPost(httpMethod) && FieldsPresent(body) && ConfigPresent(env)
    // The grant is scoped to the request's room and participant.
    ensures o.submitted.Some? ==>
              var g := o.submitted.value;
              && WellFormedGrant(g)
              && Some(g.identity) == body.participantName
              && Some(g.video.room) == body.roomName
              && Some(g.apiKey) == env.apiKey && Some(g.apiSecret) == env.apiSecret
    // The token is the signer's output and the URL is passed through; a
    // signing failure is reported by a fixed message.
    ensures o.submitted.Some? ==>
              o.response == match sign(o.submitted.value)
                            case Signed(t) => Response(200, TokenBody(t, env.wsUrl.value))
                            case Failed(_) => Response(500, ErrorBody(SigningError))
    // 200 is sent only when every guard passed and signing succeeded, and
    // only a 200 carries a token.
    ensures o.response.status == 200 <==> o.submitted.Some? && sign(o.submitted.value).Signed?
    ensures o.response.status == 200 <==> o.response.body.TokenBody?
  {
    if !IsPost(httpMethod) then
      Reject(405, MethodNotAllowed)
    else if Falsy(body.roomName) || Falsy(body.participantName) then
      Reject(400, MissingFields)
    else if Falsy(env.apiKey) || Falsy(env.apiSecret) || Falsy(env.wsUrl) then
      Reject(500, ConfigurationError)
    else
      var participant := body.participantName.value;
      var grant := Grant(env.apiKey.value, env.apiSecret.value, participant, participant,
                         VideoGrant(body.roomName.value, true, true, true, true));
      match sign(grant)
      case Signed(token) => Outcome(Response(200, TokenBody(token, env.wsUrl.value)), Some(grant))
      case Failed(_) => Outcome(Response(500, ErrorBody(SigningError)), Some(grant))
  }

  /** Missing request fields are reported as 400 even when the server is
      not configured either. */
  lemma MissingFieldsBeforeConfiguration(body: RequestBody, env: ServerEnv, sign: Grant -> SignOutcome)
    requires !FieldsPresent(body) && !ConfigPresent(env)
    ensures Handler(Some("POST"), body, env, sign).response == Response(400, ErrorBody(MissingFields))
  {
  }

  /** When a guard rejects the request the signer is never consulted: the
      outcome is the same whatever the signer would have done. */
  lemma RejectionIgnoresSigner(httpMethod: Option<string>, body: RequestBody, env: ServerEnv,
                               sign1: Grant -> SignOutcome, sign2: Grant -> SignOutcome)
    requires !(IsPost(httpMethod) && FieldsPresent(body) && ConfigPresent(env))
    ensures Handler(httpMethod, body, env, sign1) == Handler(httpMethod, body, env, sign2)
  {
  }

  /** A signing failure never exposes the error's text: two signers that
      both fail on the submitted grant, with whatever messages, yield the
      same response. */
  lemma SigningFailureIsGeneric(httpMethod: Option<string>, body: RequestBody, env: ServerEnv,
                                sign1: Grant -> SignOutcome, sign2: Grant -> SignOutcome)
    requires var submitted := Handler(httpMethod, body, env, sign1).submitted;
             submitted.Some? ==> sign1(submitted.value).Failed? && sign2(submitted.value).Failed?
    ensures Handler(httpMethod, body, env, sign1).response == Handler(httpMethod, body, env, sign2).response
  {
  }

  /** The grants the endpoint can submit for signing are exactly the
      well-formed ones: every such grant is issued for some request and
      configuration, and nothing else ever is. */
  lemma IssuableGrants(g: Grant, sign: Grant -> SignOutcome)
    ensures WellFormedGrant(g) <==>
              exists body: RequestBody, env: ServerEnv :: Handler(Some("POST"), body, env, sign).submitted == Some(g)
  {
    if WellFormedGrant(g) {
      var body := RequestBody(Some(g.video.room), Some(g.identity));
      var env := ServerEnv(Some(g.apiKey), Some(g.apiSecret), Some("wss://"));
      assert Handler(Some("POST"), body, env, sign).submitted == Some(g);
    }
  }

  /** Request `{}`: 400 with the fixed message, whatever the configuration. */
  lemma EmptyBodyExample(env: ServerEnv, sign: Grant -> SignOutcome)
    ensures Handler(Some("POST"), RequestBody(None, None), env, sign).response
            == Response(400, ErrorBody("Missing roomName or participantName"))
  {
  }

  /** Request `{roomName: "math-lesson-1", participantName: "Alice"}` with a
      valid configuration: the signer's token and the configured URL. */
  lemma MathLessonExample(key: string, secret: string, url: string, sign: Grant -> SignOutcome, token: string)
    requires key != "" && secret != "" && url != ""
    requires sign(Grant(key, secret, "Alice", "Alice", VideoGrant("math-lesson-1", true, true, true, true)))
             == Signed(token)
    ensures Handler(Some("POST"), RequestBody(Some("math-lesson-1"), Some("Alice")),
                    ServerEnv(Some(key), Some(secret), Some(url)), sign).response
            == Response(200, TokenBody(token, url))
  {
  }
}
