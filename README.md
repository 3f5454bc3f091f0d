# kpring token service, chat-room gate and REST Docs builder — a Dafny model

This project models three pieces of the kpring services:

- **The auth service's token rule** (`TokenService`). A service is built from an
  access duration, a refresh duration (milliseconds) and a secret; `init()`
  derives the signing key from the secret once. `createToken` issues an ACCESS
  and a REFRESH token for a user id and nickname; `checkToken` validates a
  token; `reCreateAccessToken` issues a new access token from a refresh token.
  Validation runs in a fixed order: signature (TOKEN_NOT_VALID), then expiry
  (TOKEN_EXPIRED, when the `ExpireTokenRepository` reports the token expired or
  its own expiry has passed), then, on the refresh path only, the kind
  (`IllegalArgumentException` for an ACCESS token).
- **The chat controller's gate** (`ChatRoomController.getUserId`): the
  validation response's body, its user id and its validity flag are checked in
  that order, each with its own error code, and the two endpoints call the
  chat-room service only with the user id that passed.
- **The REST Docs DSL** (`RestDocBuilder`): a builder whose snippet list grows
  as `request { }` and `response { }` blocks append their header, body and
  (for requests) query snippets, and the `restDoc` functions that hand the
  accumulated list to the documentation wrapper.

Files: `wrappers.dfy` (Option, Result), `token_codec.dfy` (keys, claims,
tokens, signing and verification kept abstract), `token_service.dfy` (module
`Auth`: the service class and its properties), `chat_room_controller.dfy`
(module `ChatRoom`), `rest_doc_builder.dfy` (module `RestDoc`).

Modelling choices:

- The `TokenService` source itself is not part of this model; its behaviour is
  taken from `auth/src/test/kotlin/kpring/auth/service/TokenServiceTest.kt`.
  The constructor performs `init()`: the key is a constant derived from the
  secret, so it is fixed for the object's lifetime.
- A token is `Jws(claims, signingKey)` or `Unparsable(text)`; decoding succeeds
  exactly when the token is signed with the verifying key. Keys stand for
  `Keys.hmacShaKeyFor(secret.toByteArray(UTF_8))` and are identified with their
  secret: the model assumes that distinct secrets give distinct keys.
- The clock is the parameter `now` (milliseconds); the revocation repository is
  the predicate parameter `isExpired` on the presented token; the auth client of
  the chat controller is a function from the `Authorization` header to the
  response body; the chat-room service call is returned as a value.
- A token is naturally expired when its expiry is strictly before `now`.
- The refresh path reports expiry before the kind. The test's expired ACCESS
  token (lines 122-145) must fail with TOKEN_EXPIRED on the refresh path, which
  rules out checking the kind first.
- Token identity in the model is its claims and key, so a reissued access token
  differs from the originally issued one exactly when it is issued at a
  different millisecond (`ReCreateFromIssuedRefreshToken`).
- A `restDoc` configuration block is represented by the sequence of
  request/response blocks it runs, and each block by the snippets its inner
  builder holds once its own block has run.

## Model

| member | source | states |
|---|---|---|
| `TokenCodec.Encode` | auth/src/test/kotlin/kpring/auth/service/TokenServiceTest.kt:91-93 | a token signed with a key decodes to its claims under that key and fails to decode under every other key |
| `TokenCodec.Decode` | auth/src/test/kotlin/kpring/auth/service/TokenServiceTest.kt:94-99 | decoding succeeds exactly for a parseable token signed with the verifying key |
| `TokenCodec.DeriveKeyInjective` | auth/src/test/kotlin/kpring/auth/service/TokenServiceTest.kt:123-124 | two secrets derive the same key exactly when they are equal |
| `TokenCodec.EncodeInjective` | auth/src/test/kotlin/kpring/auth/service/TokenServiceTest.kt:126-127 | a token determines both its claims and its signing key |
| `Auth.KnownText` | auth/src/test/kotlin/kpring/auth/service/TokenServiceTest.kt:135-136 | TOKEN_EXPIRED, and only it here, has id "AUTH_0002" and message "토큰이 만료되었습니다." |
| `Auth.TokenService.constructor` | auth/src/test/kotlin/kpring/auth/service/TokenServiceTest.kt:27-37 | the service keeps both durations and the secret, and its key is the one derived from the secret |
| `Auth.TokenService.CreateToken` | auth/src/test/kotlin/kpring/auth/service/TokenServiceTest.kt:46-56 | access and refresh tokens expire accessDuration and refreshDuration after issuance, and decode under the service key to the request's id and nickname with kinds ACCESS and REFRESH |
| `Auth.TokenService.CheckToken` | auth/src/test/kotlin/kpring/auth/service/TokenServiceTest.kt:94-137 | TOKEN_NOT_VALID exactly when the token does not verify; TOKEN_EXPIRED exactly when it verifies and the oracle or its own expiry says expired; otherwise its claims; never an argument error |
| `Auth.TokenService.ReCreateAccessToken` | auth/src/test/kotlin/kpring/auth/service/TokenServiceTest.kt:66-145 | order signature, expiry, kind with the three failures each characterised exactly; on success a new ACCESS token for the same user expiring accessDuration after now, with the refresh token and its expiry echoed |
| `Auth.SecondsOf` | auth/src/test/kotlin/kpring/auth/service/TokenServiceTest.kt:52 | Kotlin's `Int / 1000` rounds toward zero: the remainder has the sign of the dividend and is below 1000 in magnitude |
| `Auth.CreateTokenMeetsTestDeadline` | auth/src/test/kotlin/kpring/auth/service/TokenServiceTest.kt:48-54 | both expiries are strictly before the test's `time + (duration / 1000 + 1)` seconds when issued at the test's clock reading, and for whole-second durations when issued less than a second later |
| `Auth.IssuedAccessTokenChecks` | auth/src/test/kotlin/kpring/auth/service/TokenServiceTest.kt:111-119 | the complement of the revoked case: an unrevoked issued access token checks out, before its expiry, with the request's id and nickname |
| `Auth.ReCreateFromIssuedRefreshToken` | auth/src/test/kotlin/kpring/auth/service/TokenServiceTest.kt:66-71 | reissuing from an unrevoked, live issued refresh token succeeds, echoes that refresh token, and returns an access token different from the issued one exactly when time has moved on |
| `Auth.ReCreateRejectsIssuedAccessToken` | auth/src/test/kotlin/kpring/auth/service/TokenServiceTest.kt:74-80 | an unrevoked, live issued access token on the refresh path is an argument error, not a service error |
| `Auth.ForeignKeyNotValid` | auth/src/test/kotlin/kpring/auth/service/TokenServiceTest.kt:83-108 | a token signed with any key but the service's is TOKEN_NOT_VALID on both paths, whatever the oracle and clock |
| `Auth.OtherSecretNotValid` | auth/src/test/kotlin/kpring/auth/service/TokenServiceTest.kt:84-93 | a token signed with the key of a different secret is TOKEN_NOT_VALID on both paths |
| `Auth.RevokedAccessTokenExpired` | auth/src/test/kotlin/kpring/auth/service/TokenServiceTest.kt:111-119 | an issued access token the oracle reports expired is TOKEN_EXPIRED on check, at any time |
| `Auth.ExpiredAccessTokenOnBothPaths` | auth/src/test/kotlin/kpring/auth/service/TokenServiceTest.kt:122-145 | an ACCESS token signed with the key of the service's secret that is revoked or past its expiry is TOKEN_EXPIRED (id AUTH_0002) on both paths: expiry precedes the kind check and is never TOKEN_NOT_VALID |
| `Auth.ReCreateExtendsCheck` | auth/src/test/kotlin/kpring/auth/service/TokenServiceTest.kt:94-145 | the refresh path fails with exactly the service errors of the check path, is an argument error exactly for a valid ACCESS token and succeeds exactly for a valid REFRESH token |
| `Auth.ReCreatedAccessTokenChecks` | auth/src/test/kotlin/kpring/auth/service/TokenServiceTest.kt:66-71 | a reissued access token checks out, until its expiry and unless revoked, with the refresh token's id and nickname |
| `ChatRoom.GetUserId` | chat/src/main/kotlin/kpring/chat/chatroom/api/v1/ChatRoomController.kt:41-49 | INVALID_TOKEN_BODY exactly for a missing body, USERID_NOT_EXIST exactly for a body without user id, INVALID_TOKEN exactly for a user id with isValid false, otherwise exactly the body's user id |
| `ChatRoom.UserIdCheckedBeforeValidity` | chat/src/main/kotlin/kpring/chat/chatroom/api/v1/ChatRoomController.kt:43-46 | a body without user id is USERID_NOT_EXIST whatever its validity flag |
| `ChatRoom.CreateChatRoom` | chat/src/main/kotlin/kpring/chat/chatroom/api/v1/ChatRoomController.kt:18-27 | the service call happens exactly when the gate passes, with the request unchanged and the user id of a valid response; otherwise the gate's error |
| `ChatRoom.ExitChatRoom` | chat/src/main/kotlin/kpring/chat/chatroom/api/v1/ChatRoomController.kt:29-39 | the same gate for leaving the room named in the path |
| `ChatRoom.EndpointsShareTheGate` | chat/src/main/kotlin/kpring/chat/chatroom/api/v1/ChatRoomController.kt:23-37 | both endpoints pass or fail together on the same token, with the same user id |
| `RestDoc.Present` | test/src/main/kotlin/kpring/test/restdoc/dsl/RestDocBuilder.kt:51-53 | keeping the present slots yields one snippet per present slot |
| `RestDoc.RestDocBuilder.constructor` | test/src/main/kotlin/kpring/test/restdoc/dsl/RestDocBuilder.kt:45-47 | a fresh builder has no snippets |
| `RestDoc.RestDocBuilder.Request` | test/src/main/kotlin/kpring/test/restdoc/dsl/RestDocBuilder.kt:48-54 | the snippet list becomes the old list followed by the present header, body and query snippets in that order |
| `RestDoc.RestDocBuilder.Response` | test/src/main/kotlin/kpring/test/restdoc/dsl/RestDocBuilder.kt:56-61 | the snippet list becomes the old list followed by the present header and body snippets in that order |
| `RestDoc.RestDoc` | test/src/main/kotlin/kpring/test/restdoc/dsl/RestDocBuilder.kt:9-43 | the wrapper receives the identifier, the description and exactly the snippets the configuration accumulated, in order |
| `RestDoc.PresentAppend` | test/src/main/kotlin/kpring/test/restdoc/dsl/RestDocBuilder.kt:51-60 | keeping present slots distributes over concatenation |
| `RestDoc.AccumulatedIsPresentSlots` | test/src/main/kotlin/kpring/test/restdoc/dsl/RestDocBuilder.kt:47-61 | the accumulated list is the present slots of all blocks, in block and slot order |
| `RestDoc.AccumulatedAppend` | test/src/main/kotlin/kpring/test/restdoc/dsl/RestDocBuilder.kt:47-61 | running more blocks only appends: the earlier list is a prefix of the later one |
| `RestDoc.AccumulatedSnoc` | test/src/main/kotlin/kpring/test/restdoc/dsl/RestDocBuilder.kt:51-60 | one more block appends exactly that block's snippets |
| `RestDoc.RequestGrowth` | test/src/main/kotlin/kpring/test/restdoc/dsl/RestDocBuilder.kt:51-53 | a request block adds one snippet per present slot, at most three |
| `RestDoc.ResponseIsRequestWithoutQuery` | test/src/main/kotlin/kpring/test/restdoc/dsl/RestDocBuilder.kt:56-61 | a response block adds what a request block with the same header and body and no query adds, at most two |
| `RestDoc.RequestOrder` | test/src/main/kotlin/kpring/test/restdoc/dsl/RestDocBuilder.kt:48-54 | header precedes body precedes query, and absent ones leave no gap |

## Left out

- JWT encoding, Base64 and HMAC signing: a token is its claims and signing key, and verification is key equality.
- The token strings being non-empty (test lines 51 and 53): tokens are abstract values; what the model proves instead is that each issued token decodes under the service key.
- `TokenCodec.DeriveKeyInjective`: distinct secrets are assumed to give distinct keys; Java's lossy encoding of unpaired surrogates (each becomes `?`) and HMAC's zero-padding of short keys, under which some distinct secrets sign alike, are not modelled.
- The weak-key rule of `Keys.hmacShaKeyFor` (a secret shorter than 256 bits is refused) and the `IllegalStateException` beside it: every secret derives a key here.
- The wall clock (`LocalDateTime` in zone Asia/Seoul) is the parameter `now` in milliseconds; a JWT's expiry held in whole seconds is not modelled.
- `ExpireTokenRepository.isExpired` is a predicate parameter; its storage, suspension and transport failures are not modelled.
- `now + duration` overflowing a 64-bit millisecond count is not modelled.
- The id and message of TOKEN_NOT_VALID: AuthErrorCode.kt is not part of this model.
- Tokens that are naturally live, revoked by the oracle and of kind ACCESS fail with TOKEN_EXPIRED on the refresh path in the model; the test pins this order only for a token that is also past its expiry.
- `authClient.validateToken` (an HTTP call), `ChatRoomService`, Spring annotations and `ResponseEntity` building: the client is a function parameter and the service call is returned as a value.
- `RestDocRequestBuilder` and `RestDocResponseBuilder` internals and the Spring REST Docs / epages wrappers: a block is the optional snippets its builder ends with, and the document is a value.
- `RestDoc.RestDoc`: `toTypedArray()` is not modelled; the snippets are handed over as a sequence.
- `RestDoc.RestDoc`: a configuration is only a sequence of `request`/`response` blocks; one that changes the public `snippets` list directly (`add`, `clear`) or throws cannot be represented, and for such a configuration the list would not only grow by appending.
- `user/src/test/kotlin/kpring/user/controller/UserControllerTest.kt`, `front/src/App.tsx` and `RoomChatRepository.kt`: test harness, UI routes and a repository interface with no logic.
