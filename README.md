# LTI 1.3 dynamic registration: a Dafny model of the two-phase handshake

This project models the tool side of the IMS LTI Dynamic Registration 1.0
handshake as the example Nuxt LTI tool implements it, and proves what the two
route handlers do to the tool's two key-value stores.

- **Phase one**, `GET /registration` (section 3.3 of the standard, the
  registration initiation request): the query must carry
  `openid_configuration` as a string, and `registration_token` may be absent
  or a string. The handler upserts `{token}` under the configuration URL in
  the pending store, with `""` for a missing token, and answers with a form
  that posts the URL back as `endpoint` to `/continue-registration`.
- **Phase two**, `POST /continue-registration` (sections 3.4 to 3.6): the body
  must carry `endpoint` and `tool_name` as strings. The handler looks the
  endpoint up in the pending store (400 "Registration not started" when it is
  absent) and deletes the entry. It then fetches the platform's OpenID
  configuration and resolves the tool's `launch`, `deep-link-launch`, `login`
  and `keys` URLs against the server URL. It POSTs the client-registration
  request (section 3.1 of OpenID Connect Dynamic Client Registration 1.0)
  with the consumed token as bearer credential, reads the platform's product
  family code and generates a key pair. When the platform key
  `issuer + ":" + clientId` is taken, the call is a 409 "Platform already
  registered"; otherwise it inserts the platform record and answers with the
  `org.imsglobal.lti.close` message.

How the model is built:

- The stores are the two `map` fields of `Storage.Stores`.
- Each handler is an imperative module-level method that takes that object and updates its maps:
  - `RegistrationRoute.HandleRegistration`, whose frame is the pending store alone;
  - `ContinueRegistrationRoute.ContinueRegistration`.
- Each method is proved equal to a function of the old stores (`Initiated`,
  `Completed`), and the lemmas state the properties over those functions.
  `Completed` is written in three stages, each with its own contract: the
  parse and the lookup, the calls after the entry is deleted
  (`CompletedAfterLookup`), and the key check with the insert (`Recorded`).
- The answers of the outside world are parameters of phase two: the fetched
  configuration, the `client_id` of the registration response and the
  generated `kid`, each `None` when that call throws. The calls the handler
  makes are returned as a trace of effects, in order, so "the key pair was
  generated before the 409" and "the POST carried the consumed token" can be
  stated.

Points where the model follows the code:

- Validation is only "present and a string". There is no URL well-formedness
  check.
- Any stored pending entry counts as started, including `{token: ""}`: the
  store only ever holds `{token}` objects, which are truthy.
- The code asks for five scopes; the model has the same five, in the code's order.
- The configuration document is not validated by the code. Only the missing
  LTI platform-configuration member is modelled as an error: reading
  `product_family_code` then throws, after the registration POST and before
  key generation.

The platform key joins the issuer and the client id with a colon, exactly as
the code does. It identifies the pair only when client ids hold no colon
(`PlatformKeyInjective`). Otherwise a colon can move between the issuer and the client id without changing the key, and a platform
that was never registered can be refused with a 409 (`PlatformKeyCollision`,
`ColonShiftConflicts`, with `DistinctPairCanConflict` as one instance).

## Model

| member | source | states |
|---|---|---|
| `Text.Join` | server/routes/continue-registration.post.ts:74 | `scope.join(" ")`: the result holds the separator if and only if there are at least two pieces or some piece holds it |
| `Text.Split` | server/routes/continue-registration.post.ts:74 | reading `scope` back as a space-separated list: joining the pieces gives the string back, no piece holds a space, there is at least one piece |
| `Text.SplitJoin` | server/routes/continue-registration.post.ts:53-74 | splitting the join of a non-empty list of separator-free strings gives the list back |
| `RegistrationRequests.ScopeRoundTrip` | server/routes/continue-registration.post.ts:53-74 | the `scope` value (`ScopeValue`, the join of line 74) read as a space-separated list is exactly the five scope URIs in source order |
| `RegistrationRequests.ScopesWithoutSpaces` | server/routes/continue-registration.post.ts:53-59 | none of the five scope URIs contains a space, so the join of line 74 can be split back |
| `RegistrationRequests.ResolveEndpoints` | server/routes/continue-registration.post.ts:60-63 | the four tool URLs are there if and only if each of `launch`, `deep-link-launch`, `login` and `keys` resolves against the server URL, and each is its own path's resolution |
| `RegistrationRequests.BuildRegistrationRequest` | server/routes/continue-registration.post.ts:60-89 | `redirect_uris` is exactly [launch, deep-link] in that order; `target_link_uri` is the launch URL; login and keys URLs, the joined scope value, `claims` equal to the supported claims, the server URL as domain, the two message types, grant and response types, `private_key_jwt`, and the literal fields: application type `web`, client name, logo URI, description and empty custom parameters |
| `Platforms.BuildPlatformRecord` | server/routes/continue-registration.post.ts:103-120 | the record has `url = issuer`, the client id, `name = product_family_code`, the authorization and token endpoints, `authConfig = {JWK_SET, jwks_uri}`, the kid and the tool name; its key is `issuer:clientId` |
| `Platforms.PlatformKey` | server/routes/continue-registration.post.ts:122 | the key is the url, one colon, then the client id: its length and its three parts; what it identifies is stated by `PlatformKeyInjective` and `PlatformKeyCollision` |
| `Platforms.KeyClientId` | server/routes/continue-registration.post.ts:122 | reading a key back: the result is a colon-free suffix of the key, and where it is shorter than the key it is preceded by a colon (the text after the last colon) |
| `Platforms.KeyClientIdOfKey` | server/routes/continue-registration.post.ts:122 | a colon-free client id is read back from the key `url:clientId` |
| `Platforms.PlatformKeyInjective` | server/routes/continue-registration.post.ts:122 | with colon-free client ids, equal keys mean equal (issuer, client id) pairs |
| `Platforms.PlatformKeyCollision` | server/routes/continue-registration.post.ts:122 | for every url and colon-split client id `a:b`, the different pairs (`url:a`, `b`) and (`url`, `a:b`) share a key |
| `Platforms.KeyPresentIffPairRegistered` | server/routes/continue-registration.post.ts:122-127 | in a store keyed by pair with colon-free client ids, the key of a pair is present if and only if a record for that pair is |
| `Platforms.RecordsHaveDistinctPairs` | server/routes/continue-registration.post.ts:122-130 | in a store keyed by pair no two records share their (url, client id) pair |
| `Lti.Status` | server/routes/continue-registration.post.ts:33-127 | a failure is a 400 if and only if it is the input error or "Registration not started", a 409 if and only if the platform is already registered, and a 500 otherwise |
| `Lti.StatusMessage` | server/routes/continue-registration.post.ts:45-126 | a message is set exactly for "Registration not started" and "Platform already registered", and those are the 400 and the 409 the handler raises itself |
| `Storage.Stores.constructor` | server/storage/registration.ts:3-5 | both stores start empty and keyed by pair |
| `RegistrationRoute.ParseQuery` | server/routes/registration.get.ts:4-30 | the query parses exactly when `openid_configuration` is a string and `registration_token` is absent or a string; the parse keeps both values; failure is the 400 input error |
| `RegistrationRoute.StoredToken` | server/routes/registration.get.ts:34 | the token, or `""` when it is falsy: a given token is kept, and the stored token is empty if and only if none was given or it was empty |
| `RegistrationRoute.Initiated` | server/routes/registration.get.ts:9-48 | one phase-one call: it answers with a form if and only if the query parses, never removes a pending entry, leaves the store as it was on failure, and on success adds at most the form's endpoint and keeps every other entry |
| `RegistrationRoute.ContinuationFormFor` | server/routes/registration.get.ts:40-47 | the form posts to `/continue-registration` and carries the configuration URL as its hidden `endpoint` |
| `RegistrationRoute.InitiationRejectsInvalidQuery` | server/routes/registration.get.ts:13-30 | an invalid query is a 400 and the pending store is unchanged |
| `RegistrationRoute.InitiationUpserts` | server/routes/registration.get.ts:32-47 | a valid call maps the URL to `{token}` (`""` when absent), replacing any earlier entry, keeps every other entry, and answers with the form for that URL |
| `RegistrationRoute.HandleRegistration` | server/routes/registration.get.ts:9-48 | the handler's response and pending store are those of `Initiated`; its frame is the pending store only, so the platform store is untouched and no outside call is made; the store invariant is kept |
| `ContinueRegistrationRoute.ParseBody` | server/routes/continue-registration.post.ts:18-40 | the body parses exactly when `endpoint` and `tool_name` are both strings, keeping both; failure is the 400 input error |
| `ContinueRegistrationRoute.Bearer` | server/routes/continue-registration.post.ts:97 | the `Authorization` header is `Bearer ` followed by exactly the token |
| `ContinueRegistrationRoute.Completed` | server/routes/continue-registration.post.ts:23-136 | one phase-two call: the pending store is unchanged or loses exactly the started endpoint, no stored platform record is removed or changed, and the platform store changes only on success; the branches are stated by the `Completion*` lemmas |
| `ContinueRegistrationRoute.CompletedAfterLookup` | server/routes/continue-registration.post.ts:52-127 | the call after the pending entry is deleted: the pending store stays as it is, the configuration fetch is the first call, the registration POST when made is the second and carries the stored token, no stored record changes, and the call can succeed or conflict only when every outside step answered, in which case the key pair was generated and the outcome is that of `Recorded` for the record built from the answers |
| `ContinueRegistrationRoute.Recorded` | server/routes/continue-registration.post.ts:122-135 | the call succeeds exactly when the record's key is free; a taken key is a conflict that writes nothing, a free one gains exactly that key holding the record, every other record stays, and the success carries the close message |
| `ContinueRegistrationRoute.CompletionRejectsInvalidBody` | server/routes/continue-registration.post.ts:24-40 | an invalid body is a 400 with both stores unchanged and no outside call |
| `ContinueRegistrationRoute.CompletionRequiresPendingEntry` | server/routes/continue-registration.post.ts:42-48 | an endpoint without a pending entry is a 400 "Registration not started" with both stores unchanged and no outside call |
| `ContinueRegistrationRoute.CompletionConsumesPendingEntry` | server/routes/continue-registration.post.ts:43-52 | once found, the entry is removed on every outcome, every other pending entry is kept, and the first outside call is the fetch of the endpoint |
| `ContinueRegistrationRoute.CompletionRegistrationRequest` | server/routes/continue-registration.post.ts:60-100 | the only POST is the second call; it goes to `registration_endpoint` with `Bearer <consumed token>`, redirects to [launch, deep-link], targets launch, carries the scope value and the supported claims, and its body is exactly the request `BuildRegistrationRequest` builds from the resolved URLs, the server URL and the supported claims |
| `ContinueRegistrationRoute.CompletionUpstreamFailures` | server/routes/continue-registration.post.ts:52-107 | each later failure with the calls made before it: fetch failure or URL-resolution failure after the fetch only; POST failure and missing platform configuration after the fetch and the POST (so the platform has registered a client the tool does not record); key-generation failure after fetch, POST and key generation; no failure writes a platform record |
| `ContinueRegistrationRoute.CompletionConflict` | server/routes/continue-registration.post.ts:107-127 | the call is a 409 if and only if every step answered and `issuer:clientId` is taken; then the platform store is unchanged, the key pair was still generated, and the answer is 409 "Platform already registered" |
| `ContinueRegistrationRoute.CompletionRegistersPlatform` | server/routes/continue-registration.post.ts:103-135 | the call succeeds if and only if every step answered and the key is free; the store then gains exactly that key with the record built from the configuration, client id, kid and tool name, keeps every other record, and the close message is returned after fetch, POST and key generation |
| `ContinueRegistrationRoute.CompletionKeepsKeyedByPair` | server/routes/continue-registration.post.ts:122-130 | every record written sits under the key of its own pair |
| `ContinueRegistrationRoute.ContinueRegistration` | server/routes/continue-registration.post.ts:23-136 | the handler's response, effect trace and both stores are those of `Completed`, and the store invariant is kept |
| `Handshake.Submit` | server/routes/registration.get.ts:41-44 | submitting the form yields a body that parses to its endpoint and the typed tool name |
| `Handshake.InitiationEnablesCompletion` | server/routes/registration.get.ts:32-42 | completing with the form of a successful initiation always passes the parse and the lookup, even with an empty token; it fetches that URL, registers with the stored token and leaves no pending entry for it |
| `Handshake.CompletionIsSingleUse` | server/routes/continue-registration.post.ts:43-50 | after any phase-two call for an endpoint, a second one for the same endpoint is "Registration not started" and changes nothing |
| `Handshake.LatestInitiationWins` | server/routes/registration.get.ts:33-35 | initiating twice leaves the store the second call alone would make: one entry, the latest token |
| `Handshake.ReRegistrationConflicts` | server/routes/continue-registration.post.ts:122-130 | after a successful registration, a new handshake answered with the same issuer and client id is a 409 that writes nothing, with its key pair generated |
| `Handshake.ColonShiftConflicts` | server/routes/continue-registration.post.ts:122-127 | for any url, a and b: a stored record for (url + ":" + a, b) makes an answer of (url, a + ":" + b) a 409, although no stored record has that pair |
| `Handshake.DistinctPairCanConflict` | server/routes/continue-registration.post.ts:122-127 | the instance ("https://lms.example", "8443:abc") refused because ("https://lms.example:8443", "abc") is registered |

## Left out

- Network calls: the configuration GET and the registration POST are effects in a trace, and their answers are parameters. HTTP, status codes of the platform and JSON parsing are not modelled.
- Status of uncaught errors: `Lti.Status` gives 500 for every failure the handlers do not raise themselves. The framework's conversion of a thrown fetch error, which may carry the platform's own status, is not modelled.
- Partial configuration documents: beyond the missing LTI platform-configuration member, a document with missing or mistyped fields is not modelled (the code would send `undefined` fields or key the record with `undefined`). So is a 2xx registration answer without `client_id`: the model has only "answered with a client id" or "threw".
- Key generation: `generatePlatformKeyPair` (server/utils/auth is not part of this model) is an opaque source of a `kid`, or a failure. Key material and where it is kept are not modelled.
- Storage backend: the stores are maps. The wrappers over the framework's storage and any eviction are not modelled. The storage layer normalises keys before use (among other rewrites it turns `/` into `:`), so distinct endpoints or platform keys could share a stored key. The model uses the strings as given.
- Schema parsing: inputs are fields that are absent, a string or another type. The parser's error messages and the framework's body decoding are not modelled. The 500 "Something went wrong" branches (server/routes/registration.get.ts:26-29 and server/routes/continue-registration.post.ts:36-39) are not modelled: a schema parse only throws its own error type.
- URL resolution: `new URL(path, serverUrl)` is the parameter `resolve`, which yields `None` where the constructor throws. WHATWG URL semantics are not modelled.
- HTML: the form and the closing script are values (`ContinuationForm`, `CloseSignal`). Rendering, the response headers and logging are not modelled. The form interpolates the endpoint into an attribute without escaping, so the model's form round trip assumes the endpoint survives that rendering.
- Order of the pending delete: the code deletes the pending entry before the configuration fetch (server/routes/continue-registration.post.ts:50-52). The effect trace records only outside calls, so no contract states this order; only the statement order of `ContinueRegistration` shows it. The contracts state that the entry is gone on every outcome after the lookup, including when the fetch fails.
- Concurrency: the check-then-insert on the platform store is modelled sequentially. The race between two concurrent completions is not modelled.
