/** Values shared by the two token issuers: the Next.js endpoint and the
    Python example. Both hand a room-scoped video grant to the conferencing
    SDK's signer and only ever see the signer's outcome. */
module TokenCommon {

  /** An optional value; `None` stands for JavaScript's `undefined`/`null`
      and for Python's `None`. */
  datatype Option<+T> = None | Some(value: T)

  /** Falsiness of an optional string, which JavaScript's `!x` and Python's
      `not x` agree on: a missing value or the empty string. */
  predicate Falsy(v: Option<string>) {
    v.None? || v.value == ""
  }

  /** The permissions the SDK signs into a token (`VideoGrant` in the
      JavaScript SDK, `VideoGrants` in the Python one). */
  datatype VideoGrant = VideoGrant(
    room: string,
    roomJoin: bool,
    canPublish: bool,
    canSubscribe: bool,
    canPublishData: bool)

  /** What the SDK's signer (`toJwt()` / `to_jwt()`) does with a request:
      it produces a JWT, or it throws an error carrying a message. */
  datatype SignOutcome = Signed(jwt: string) | Failed(message: string)
}
