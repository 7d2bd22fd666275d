/** How the two token issuers of the repository relate: the Next.js endpoint
    and the Python Flask example ask the SDK for the same token for the
    same room and participant, and both refuse a request that lacks either. */
module Consistency {
  import opened TokenCommon
  import ApiToken
  import TokenGenerator

  /** With the same credentials, a Next.js request for `room` and
      `participant` and a Flask request with the same room and identity (and
      no name) are granted the same identity, display name and permissions.
      Only the Python token states its lifetime; the Next.js one leaves it
      to the SDK. */
  lemma SameGrantForSameRequest(key: string, secret: string, url: string, room: string, participant: string,
                                signNext: ApiToken.Grant -> SignOutcome,
                                signFlask: TokenGenerator.TokenClaims -> SignOutcome)
    requires key != "" && secret != "" && url != "" && room != "" && participant != ""
    ensures
      var next := ApiToken.Handler(Some("POST"), ApiToken.RequestBody(Some(room), Some(participant)),
                                   ApiToken.ServerEnv(Some(key), Some(secret), Some(url)), signNext);
      var flask := TokenGenerator.GetToken(TokenGenerator.Credentials(key, secret),
                                           map["room" := Some(room), "identity" := Some(participant)], signFlask);
      && next.submitted.Some? && flask.requested.Some?
      && flask.requested.value.apiKey == next.submitted.value.apiKey
      && flask.requested.value.apiSecret == next.submitted.value.apiSecret
      && flask.requested.value.identity == Some(next.submitted.value.identity)
      && flask.requested.value.name == Some(next.submitted.value.name)
      && flask.requested.value.video == Some(next.submitted.value.video)
  {
  }

  /** Both issuers answer 400, and sign nothing, when the room or the
      participant is missing or empty, whatever the configuration. */
  lemma BothRejectMissingFields(room: Option<string>, participant: Option<string>, env: ApiToken.ServerEnv,
                                creds: TokenGenerator.Credentials,
                                signNext: ApiToken.Grant -> SignOutcome,
                                signFlask: TokenGenerator.TokenClaims -> SignOutcome)
    requires Falsy(room) || Falsy(participant)
    ensures
      var next := ApiToken.Handler(Some("POST"), ApiToken.RequestBody(room, participant), env, signNext);
      var flask := TokenGenerator.GetToken(creds, map["room" := room, "identity" := participant], signFlask);
      && next.response.status == 400 && next.submitted.None?
      && flask.response.status == 400 && flask.requested.None?
  {
  }
}
