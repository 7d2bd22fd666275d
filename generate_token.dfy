/** The Python token generator (`examples/generate-token.py`): the
    `generate_token` builder sequence on the SDK's `AccessToken`, the Flask
    `POST /token` handler built by `create_flask_api`, and the command-line
    entry point. The signer `to_jwt()` is the oracle `sign`; the process
    environment and `sys.argv` are parameters. */
module TokenGenerator {
  import opened TokenCommon

  const ApiKeyVariable := "LIVEKIT_API_KEY"
  const ApiSecretVariable := "LIVEKIT_API_SECRET"
  const DefaultApiKey := "your-api-key"
  const DefaultApiSecret := "your-api-secret"

  /** `timedelta(hours=6)`, in seconds. */
  const SixHours: nat := 6 * 60 * 60

  const MissingRoomOrIdentity := "room and identity are required"
  const FlaskServerUrl := "wss://your-app-name.fly.dev"
  const Usage := "Usage: python generate-token.py <room-name> <user-identity> [user-name]"
  const ClosingHint := "\nUse this token in your client application"

  /** The line printed before the token. */
  function Greeting(name: string, room: string): string {
    "\nGenerated token for " + name + " in room '" + room + "':"
  }

  /** The module-level `LIVEKIT_API_KEY` and `LIVEKIT_API_SECRET`. */
  datatype Credentials = Credentials(apiKey: string, apiSecret: string)

  /** `os.getenv(variable, default)`: the variable's value whenever it is
      set, the default only when it is not. */
  function GetEnv(env: map<string, string>, variable: string, default: string): string {
    if variable in env then env[variable] else default
  }

  /** The credentials read once, when the module is imported. */
  function CredentialsFrom(env: map<string, string>): (c: Credentials)
    ensures ApiKeyVariable in env ==> c.apiKey == env[ApiKeyVariable]
    ensures ApiKeyVariable !in env ==> c.apiKey == DefaultApiKey
    ensures ApiSecretVariable in env ==> c.apiSecret == env[ApiSecretVariable]
    ensures ApiSecretVariable !in env ==> c.apiSecret == DefaultApiSecret
  {
    Credentials(GetEnv(env, ApiKeyVariable, DefaultApiKey), GetEnv(env, ApiSecretVariable, DefaultApiSecret))
  }

  /** What an `AccessToken` holds when it is signed; a `None` field is one
      no builder call has set. */
  datatype TokenClaims = TokenClaims(
    apiKey: string,
    apiSecret: string,
    identity: Option<string>,
    name: Option<string>,
    video: Option<VideoGrant>,
    ttlSeconds: Option<nat>)

  /** A freshly constructed `api.AccessToken(key, secret)`. */
  function Blank(creds: Credentials): TokenClaims {
    TokenClaims(creds.apiKey, creds.apiSecret, None, None, None, None)
  }

  /** The SDK's token builder as `generate_token` drives it: each `with_*`
      call overwrites one part of the token. (The SDK's calls also return
      the builder for chaining; `generate_token` ignores that.) */
  class AccessToken {
    const apiKey: string
    const apiSecret: string
    var identity: Option<string>
    var name: Option<string>
    var video: Option<VideoGrant>
    var ttlSeconds: Option<nat>

    function State(): TokenClaims
      reads this
    {
      TokenClaims(apiKey, apiSecret, identity, name, video, ttlSeconds)
    }

    constructor (apiKey: string, apiSecret: string)
      ensures State() == Blank(Credentials(apiKey, apiSecret))
    {
      this.apiKey := apiKey;
      this.apiSecret := apiSecret;
      identity, name, video, ttlSeconds := None, None, None, None;
    }

    method WithIdentity(identity: string)
      modifies this
      ensures State() == old(State()).(identity := Some(identity))
    {
      this.identity := Some(identity);
    }

    method WithName(name: string)
      modifies this
      ensures State() == old(State()).(name := Some(name))
    {
      this.name := Some(name);
    }

    method WithGrants(grant: VideoGrant)
      modifies this
      ensures State() == old(State()).(video := Some(grant))
    {
      video := Some(grant);
    }

    method WithTtl(seconds: nat)
      modifies this
      ensures State() == old(State()).(ttlSeconds := Some(seconds))
    {
      ttlSeconds := Some(seconds);
    }

    /** `to_jwt()`: hands the current claims to the signer. */
    method ToJwt(sign: TokenClaims -> SignOutcome) returns (r: SignOutcome)
      ensures r == sign(State())
    {
      r := sign(State());
    }
  }

  /** The claims `generate_token` assembles, one builder step at a time:
      identity, then a display name only when one is truthy, then the room
      grant, then the lifetime. */
  function RequestedClaims(creds: Credentials, room: string, identity: string, name: Option<string> := None,
                           canPublish: bool := true, canSubscribe: bool := true): (c: TokenClaims)
    ensures c.apiKey == creds.apiKey && c.apiSecret == creds.apiSecret
    ensures c.identity == Some(identity)
    ensures c.name.Some? <==> !Falsy(name)
    ensures c.name.Some? ==> c.name == name
    ensures c.video == Some(VideoGrant(room, true, canPublish, canSubscribe, true))
    ensures c.ttlSeconds == Some(SixHours)
  {
    var afterIdentity := Blank(creds).(identity := Some(identity));
    var afterName := if !Falsy(name) then afterIdentity.(name := name) else afterIdentity;
    var afterGrants := afterName.(video := Some(VideoGrant(room, true, canPublish, canSubscribe, true)));
    afterGrants.(ttlSeconds := Some(SixHours))
  }

  /** `generate_token`: builds the token on one `AccessToken` and signs it.
      A failed signing stands for the exception it raises. */
  method GenerateToken(creds: Credentials, sign: TokenClaims -> SignOutcome, room: string, identity: string,
                       name: Option<string> := None, canPublish: bool := true, canSubscribe: bool := true)
    returns (jwt: SignOutcome)
    ensures jwt == sign(RequestedClaims(creds, room, identity, name, canPublish, canSubscribe))
  {
    var token := new AccessToken(creds.apiKey, creds.apiSecret);
    token.WithIdentity(identity);
    if !Falsy(name) {
      token.WithName(name.value);
    }
    token.WithGrants(VideoGrant(room, true, canPublish, canSubscribe, true));
    token.WithTtl(SixHours);
    jwt := token.ToJwt(sign);
  }

  // ---------------------------------------------------------------------
  // Flask `POST /token`

  /** The JSON body as `request.json` parses it; a key mapped to `None`
      was sent as `null`. */
  type JsonBody = map<string, Option<string>>

  /** `data.get(key, default)`: the default only when the key is absent. */
  function GetOr(data: JsonBody, key: string, default: Option<string> := None): Option<string> {
    if key in data then data[key] else default
  }

  datatype FlaskBody = FlaskError(error: string) | FlaskToken(token: string, serverUrl: string)

  datatype FlaskResponse = FlaskResponse(status: int, body: FlaskBody)

  /** The handler's response and the claims it passed to `generate_token`
      (`None` when it never called it). */
  datatype FlaskOutcome = FlaskOutcome(response: FlaskResponse, requested: Option<TokenClaims>)

  /** `get_token`. */
  function GetToken(creds: Credentials, data: JsonBody, sign: TokenClaims -> SignOutcome): (o: FlaskOutcome)
    // A falsy room or identity is rejected before any token is generated.
    ensures Falsy(GetOr(data, "room")) || Falsy(GetOr(data, "identity")) ==>
              o == FlaskOutcome(FlaskResponse(400, FlaskError(MissingRoomOrIdentity)), None)
    ensures o.requested.Some? <==> !Falsy(GetOr(data, "room")) && !Falsy(GetOr(data, "identity"))
    // The token is for the body's room and identity, with the default
    // permissions and the fixed lifetime.
    ensures o.requested.Some? ==>
              var c := o.requested.value;
              && c.apiKey == creds.apiKey && c.apiSecret == creds.apiSecret
              && c.identity == data["identity"]
              && c.video == Some(VideoGrant(data["room"].value, true, true, true, true))
              && c.ttlSeconds == Some(SixHours)
    // An absent name defaults to the identity; a name that is sent is used
    // as it is, so an empty or null one leaves the token without a name.
    ensures o.requested.Some? && "name" !in data ==> o.requested.value.name == data["identity"]
    ensures o.requested.Some? && "name" in data ==>
              o.requested.value.name == (if Falsy(data["name"]) then None else data["name"])
    // Success carries the fixed server URL; a failure's message is passed
    // to the client.
    ensures o.requested.Some? ==>
              o.response == match sign(o.requested.value)
                            case Signed(t) => FlaskResponse(200, FlaskToken(t, FlaskServerUrl))
                            case Failed(m) => FlaskResponse(500, FlaskError(m))
  {
    var room := GetOr(data, "room");
    var identity := GetOr(data, "identity");
    var name := GetOr(data, "name", identity);
    if Falsy(room) || Falsy(identity) then
      FlaskOutcome(FlaskResponse(400, FlaskError(MissingRoomOrIdentity)), None)
    else
      var claims := RequestedClaims(creds, room.value, identity.value, name);
      match sign(claims)
      case Signed(token) => FlaskOutcome(FlaskResponse(200, FlaskToken(token, FlaskServerUrl)), Some(claims))
      case Failed(message) => FlaskOutcome(FlaskResponse(500, FlaskError(message)), Some(claims))
  }

  /** The shape of every token the Flask handler can ask for: a non-empty
      room and identity, the default permissions, six hours, and a display
      name that is either absent or non-empty. */
  predicate FlaskIssuable(creds: Credentials, c: TokenClaims) {
    && c.apiKey == creds.apiKey && c.apiSecret == creds.apiSecret
    && c.identity.Some? && c.identity.value != ""
    && (c.name.Some? ==> c.name.value != "")
    && c.video.Some? && c.video.value.room != ""
    && c.video.value.roomJoin && c.video.value.canPublish
    && c.video.value.canSubscribe && c.video.value.canPublishData
    && c.ttlSeconds == Some(SixHours)
  }

  /** The Flask handler asks for exactly the issuable claims: each one for
      some request body, and never anything else. An anonymous token needs
      an explicit empty or null name, since an absent one defaults to the
      identity. */
  lemma IssuableClaims(creds: Credentials, c: TokenClaims, sign: TokenClaims -> SignOutcome)
    ensures FlaskIssuable(creds, c) <==> exists data: JsonBody :: GetToken(creds, data, sign).requested == Some(c)
  {
    if FlaskIssuable(creds, c) {
      var data: JsonBody := map["room" := Some(c.video.value.room), "identity" := c.identity, "name" := c.name];
      assert GetToken(creds, data, sign).requested == Some(c);
    }
  }

  /** A request that omits the name and one that sends the identity as the
      name hand the signer the same claims, and so get the same response. */
  lemma NameDefaultsToIdentity(creds: Credentials, room: string, identity: string, sign: TokenClaims -> SignOutcome)
    ensures GetToken(creds, map["room" := Some(room), "identity" := Some(identity)], sign)
            == GetToken(creds, map["room" := Some(room), "identity" := Some(identity), "name" := Some(identity)], sign)
  {
  }

  // ---------------------------------------------------------------------
  // Command line

  /** The script's observable behaviour: exit status, the lines it prints,
      the message of an exception that escapes, and the claims handed to the signer. */
  datatype CliResult = CliResult(exitCode: int, stdout: seq<string>, uncaught: Option<string>, requested: Option<TokenClaims>)

  /** The `__main__` block; `argv[0]` is the script's name. */
  function RunCli(creds: Credentials, argv: seq<string>, sign: TokenClaims -> SignOutcome): (r: CliResult)
    ensures |argv| < 3 ==> r == CliResult(1, [Usage], None, None)
    ensures r.requested.Some? <==> |argv| >= 3
    ensures |argv| >= 3 ==>
              var c := r.requested.value;
              && c.apiKey == creds.apiKey && c.apiSecret == creds.apiSecret
              && c.identity == Some(argv[2])
              && c.video == Some(VideoGrant(argv[1], true, true, true, true))
              && c.name == (var name := if |argv| > 3 then argv[3] else argv[2];
                            if name == "" then None else Some(name))
              && c.ttlSeconds == Some(SixHours)
    // The name defaults to the identity when `argv[3]` is absent.
    ensures |argv| >= 3 ==>
              r.requested == Some(RequestedClaims(creds, argv[1], argv[2], Some(if |argv| > 3 then argv[3] else argv[2])))
    ensures r.exitCode == 0 <==> r.requested.Some? && sign(r.requested.value).Signed?
    // On success: a greeting naming the participant and the room, the
    // token on its own line, and the closing hint.
    ensures r.exitCode == 0 ==>
              r.stdout == [Greeting(if |argv| > 3 then argv[3] else argv[2], argv[1]),
                           sign(r.requested.value).jwt,
                           ClosingHint]
    ensures r.uncaught.Some? <==> r.requested.Some? && sign(r.requested.value).Failed?
    ensures r.uncaught.Some? ==> r.exitCode == 1 && r.stdout == [] && r.uncaught.value == sign(r.requested.value).message
  {
    if |argv| < 3 then
      CliResult(1, [Usage], None, None)
    else
      var room := argv[1];
      var identity := argv[2];
      var name := if |argv| > 3 then argv[3] else identity;
      var claims := RequestedClaims(creds, room, identity, Some(name));
      match sign(claims)
      case Signed(token) =>
        CliResult(0, [Greeting(name, room), token, ClosingHint],
                  None, Some(claims))
      case Failed(message) => CliResult(1, [], Some(message), Some(claims))
  }

  /** Unlike the Flask handler, the script does not reject an empty
      identity: it asks the signer for a token for it. */
  lemma CliAcceptsEmptyIdentity(creds: Credentials, room: string, sign: TokenClaims -> SignOutcome)
    ensures RunCli(creds, ["generate-token.py", room, ""], sign).requested.value.identity == Some("")
    ensures GetToken(creds, map["room" := Some(room), "identity" := Some("")], sign).requested.None?
  {
  }
}
