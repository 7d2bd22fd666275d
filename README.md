# Token issuance for a conferencing room, in Dafny

The repository is a web front-end for a video/audio conferencing room built
on a third-party real-time SDK. Its only authored decision logic issues the
access token that lets a participant join a room. It does this in two places:

- `pages/api/token.ts`, the Next.js endpoint the front-end calls. It is a
  chain of early-return guards: the HTTP method, then the two request fields
  `roomName` and `participantName`, then the server configuration (API key,
  API secret, public server URL). After the guards it builds a grant scoped
  to that room and participant and answers with `{token, wsUrl}`. Module
  `ApiToken` (`api_token.dfy`) models it as one function, `Handler`. The
  function returns the single response and the grant it handed to the signer.
- `examples/generate-token.py`, a Python example of the same service. It has
  three parts:
  - `generate_token` drives the SDK's `AccessToken` builder step by step.
    Module `TokenGenerator` (`generate_token.dfy`) models the builder as the
    class `AccessToken` and the function as the method `GenerateToken`. The
    method is proved equal to the value-level `RequestedClaims`.
  - The Flask `POST /token` handler is the function `GetToken`.
  - The command-line entry point is the function `RunCli`.

`TokenCommon` (`common.dfy`) holds what both share:
- the video grant (room, join, publish, subscribe, publish-data);
- the signer's outcome;
- falsiness of an optional string. JavaScript's `!x` and Python's `not x`
  agree here: a missing value (`undefined`, `null`, `None`) or `""`.

`Consistency` (`consistency.dfy`) relates the two issuers.

Inputs that the source reads from the outside world are parameters:
- `process.env` / `os.getenv` and `sys.argv`;
- the request method and body;
- the SDK's signer `toJwt()` / `to_jwt()`. It is a function parameter `sign`
  that yields `Signed(jwt)` or `Failed(message)`.

A `Failed` outcome stands for any exception thrown. For the Next.js handler
that covers the whole `try` block. For the Python code it covers the exception
raised by `generate_token`.

Two consequences of the code's order of checks and of its use of the signer:
- The request fields are checked before the configuration. Missing fields
  therefore give 400 even when the configuration is missing too
  (`ApiToken.MissingFieldsBeforeConfiguration`).
- On success the token is whatever the signer returns. The model does not
  claim it is non-empty.

In the Python module the API key and secret are read once, when the module is
imported. The model gives them to `GenerateToken`, `GetToken` and `RunCli` as
the parameter `creds`, which stands for `CredentialsFrom(env)` of the
environment at import time.

## Model

| member | source | states |
|---|---|---|
| `ApiToken.Handler` | pages/api/token.ts:8-49 | The precedence of the guards. A method other than `POST` gives 405 "Method not allowed", whatever the body and configuration. A falsy `roomName` or `participantName` gives 400 "Missing roomName or participantName", before configuration is looked at. A falsy key, secret or URL gives 500 "Server configuration error". Signing is attempted exactly when all three guards pass. The submitted grant has identity = name = `participantName`, room = `roomName`, the configured key and secret, and all four permissions true. The token is the signer's output and `wsUrl` is the configured URL unchanged. A signing failure gives 500 "Failed to generate token". Status is 200 exactly when signing was attempted and succeeded, and only a 200 carries a token. |
| `ApiToken.MissingFieldsBeforeConfiguration` | pages/api/token.ts:12-24 | Missing fields together with missing configuration still give 400. |
| `ApiToken.RejectionIgnoresSigner` | pages/api/token.ts:8-24 | When a guard rejects, the outcome does not depend on the signer, so signing is never attempted. |
| `ApiToken.SigningFailureIsGeneric` | pages/api/token.ts:46-49 | Two signers that both fail on the submitted grant, with any messages, give the same response: the error text never reaches the client. |
| `ApiToken.IssuableGrants` | pages/api/token.ts:27-38 | A grant is submitted for some request and configuration if and only if it is well formed. Well formed means: non-empty key, secret, identity and room; name equal to identity; all four permissions on. |
| `ApiToken.EmptyBodyExample` | pages/api/token.ts:12-16 | `POST {}` gives 400 with "Missing roomName or participantName", whatever the configuration. |
| `ApiToken.MathLessonExample` | pages/api/token.ts:26-45 | `POST {roomName: "math-lesson-1", participantName: "Alice"}` with a configuration gives 200 with the signer's token and the configured URL. |
| `TokenGenerator.CredentialsFrom` | examples/generate-token.py:9-10 | The key and secret are the environment variables when they are set (even to ""). The placeholders "your-api-key" and "your-api-secret" are used only when they are unset. |
| `TokenGenerator.AccessToken.constructor` | examples/generate-token.py:33 | A new builder holds the key and secret and nothing else. |
| `TokenGenerator.AccessToken.WithIdentity` | examples/generate-token.py:36 | Sets the identity and changes nothing else. |
| `TokenGenerator.AccessToken.WithName` | examples/generate-token.py:38 | Sets the display name and changes nothing else. |
| `TokenGenerator.AccessToken.WithGrants` | examples/generate-token.py:41-47 | Sets the video grant and changes nothing else. |
| `TokenGenerator.AccessToken.WithTtl` | examples/generate-token.py:50 | Sets the lifetime and changes nothing else. |
| `TokenGenerator.RequestedClaims` | examples/generate-token.py:32-50 | The assembled claims. Identity is always `participant_identity`. A display name is present exactly when `participant_name` is truthy, and then equals it. The grant has `room_join` true, `room` = `room_name`, `can_publish` and `can_subscribe` as passed (default true) and `can_publish_data` true. The lifetime is 6 hours (21600 s). Key and secret are the configured ones. |
| `TokenGenerator.GenerateToken` | examples/generate-token.py:12-55 | Running the builder sequence on one `AccessToken` and then `to_jwt()` hands the signer exactly `RequestedClaims` of the arguments, and returns the signer's outcome. |
| `TokenGenerator.GetToken` | examples/generate-token.py:80-102 | A falsy `room` or `identity` gives 400 "room and identity are required" and generates nothing. Otherwise a token is generated with the body's room and identity, the default permissions and 6 hours. If the `name` key is absent, the name defaults to the identity. A sent name is used as it is, so an empty or null one leaves the token without a name. Success gives 200 with the token and `serverUrl` "wss://your-app-name.fly.dev". A failure gives 500 with the exception's own message. |
| `TokenGenerator.IssuableClaims` | examples/generate-token.py:82-94 | The Flask handler asks for some body's claims if and only if they have a non-empty room and identity, the default permissions, 6 hours, the configured credentials, and a display name that is absent or non-empty. |
| `TokenGenerator.NameDefaultsToIdentity` | examples/generate-token.py:84 | Omitting `name` and sending the identity as the name hand the signer the same claims, and so give the same response. |
| `TokenGenerator.RunCli` | examples/generate-token.py:166-180 | Fewer than 3 argv entries print the usage line, exit with status 1 and sign nothing. Otherwise the signer is handed `RequestedClaims` for room `argv[1]` and identity `argv[2]`, with the configured key and secret, the default permissions and 6 hours. The name is `argv[3]`, or the identity when `argv[3]` is absent, and is attached only if non-empty. Exit status 0 means signing succeeded. It then prints three lines: the greeting naming that name and room, the token, and the closing hint. A signing exception escapes with exit status 1 and prints nothing. |
| `TokenGenerator.CliAcceptsEmptyIdentity` | examples/generate-token.py:169-177 | The command line asks the signer for a token for an empty identity. The Flask handler refuses the same room and identity. |
| `Consistency.SameGrantForSameRequest` | pages/api/token.ts:27-38 | For the same credentials, room and participant, the Next.js endpoint and the Flask handler (no `name` sent) request the same key, secret, identity, display name and video grant. |
| `Consistency.BothRejectMissingFields` | examples/generate-token.py:86-87 | A missing or empty room or participant gives 400 from both issuers, and neither signs anything. |

## Left out

- JWT signing inside the SDK (`AccessToken.toJwt()`, `to_jwt()`): a foreign library call, modelled as the `sign` parameter.
- The signer is modelled as depending on the claims alone. The real signer also stamps the signing time into the token, so two calls with the same claims can give different tokens. Statements that two requests give the same response assume the same signing time.
- The SDK's own defaults: the Next.js token's lifetime and the builder's initial identity and name. The model records only what the repository's code sets.
- The HTTP frameworks: `NextApiRequest`/`NextApiResponse`, Flask routing, `jsonify`, CORS and the `/health` route. Responses are values.
- Reading `process.env`, `os.getenv` and `sys.argv`: these become parameters.
- The `console.error` logging on a signing failure, and the traceback Python prints for an escaping exception. Only the exception's message is kept.
- Request fields that are JSON values other than strings or null (numbers, booleans, objects): they are not modelled. A Next.js body that is not an object, and a Flask request without a JSON object body, are left out too.
- The FastAPI variant (`create_fastapi_api`): its validation is done by pydantic, which is not part of this model.
- `components/LiveKitRoom.tsx`, `pages/index.tsx`, `pages/room/[roomName].tsx`, `examples/client.ts`, `tailwind.config.js` and both `_document.tsx` files: UI composition, SDK calls and styling, with no authored decision logic.
- The `with_*` builder calls return the builder for chaining; `generate_token` ignores that, and so does the model.
