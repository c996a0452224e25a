/**
 * Phase two of the handshake (sections 3.4 to 3.6 of IMS LTI Dynamic
 * Registration 1.0): `POST /continue-registration`.  It consumes the pending
 * entry, fetches the platform's configuration, registers the tool with the
 * platform, generates a key pair and records the platform.
 *
 * The platform's answers and the key generator's result are parameters
 * (`Upstream`); the calls the handler makes to them are returned as a trace
 * of effects, in the order they happen.
 */
module ContinueRegistrationRoute {
  import opened Wrappers
  import opened Lti
  import opened RegistrationRequests
  import opened Platforms
  import Storage

  /** The body as it arrives: the form fields `endpoint` and `tool_name`, or no object at all. */
  datatype Body = Unparsable | Fields(endpoint: Value, toolName: Value)

  /** The body after the schema parse. */
  datatype ContinuationRequest = ContinuationRequest(configurationEndpoint: string, toolName: string)

  /** The schema parse: both fields must be strings, whatever they hold. */
  function ParseBody(b: Body): (r: Result<ContinuationRequest, HandlerError>)
    ensures r.Success? <==> b.Fields? && b.endpoint.Str? && b.toolName.Str?
    ensures r.Failure? ==> r.error == InvalidInput
    ensures r.Success? ==> r.value == ContinuationRequest(b.endpoint.s, b.toolName.s)
  {
    match b
    case Fields(Str(endpoint), Str(toolName)) => Success(ContinuationRequest(endpoint, toolName))
    case _ => Failure(InvalidInput)
  }

  /** The runtime configuration and the URL resolution it is used with. */
  datatype Runtime = Runtime(serverUrl: string, resolve: (string, string) -> Option<string>)

  /**
   * What the outside world answers: the fetched configuration, the
   * `client_id` of the registration response, the generated `kid`; None where
   * the call threw.
   */
  datatype Upstream = Upstream(configuration: Option<Configuration>, clientId: Option<string>, kid: Option<string>)

  /** A call the handler makes outside the two stores. */
  datatype Effect =
    | FetchConfiguration(url: string)
    | PostRegistration(url: string, request: RegistrationRequest, authorization: string)
    | GeneratePlatformKeyPair

  const CloseSubject := "org.imsglobal.lti.close"

  /** The message the success page posts to the opener window. */
  datatype CloseSignal = CloseSignal(subject: string)

  /** The `Authorization` header of the registration POST. */
  function Bearer(token: string): (header: string)
    ensures |header| == 7 + |token| && header[..7] == "Bearer " && header[7..] == token
  {
    "Bearer " + token
  }

  /** The response of one phase-two call, both stores after it, and the calls it made. */
  datatype Completion = Completion(
    response: Result<CloseSignal, HandlerError>,
    pending: map<string, Registration>,
    platforms: map<string, PlatformRecord>,
    effects: seq<Effect>)

  /**
   * What one phase-two call does: it removes at most one pending entry, never
   * changes a stored platform record, and adds a record only when it succeeds.
   */
  function Completed(
    pending: map<string, Registration>, platforms: map<string, PlatformRecord>,
    body: Body, runtime: Runtime, upstream: Upstream): (o: Completion)
    ensures o.pending == pending || (Started(pending, body) && o.pending == pending - {EndpointOf(body)})
    ensures platforms.Keys <= o.platforms.Keys
    ensures forall k :: k in platforms ==> o.platforms[k] == platforms[k]
    ensures o.platforms == platforms || o.response.Success?
  {
    match ParseBody(body)
    case Failure(f) => Completion(Failure(f), pending, platforms, [])
    case Success(ContinuationRequest(endpoint, toolName)) =>
      if endpoint !in pending then
        Completion(Failure(RegistrationNotStarted), pending, platforms, [])
      else
        CompletedAfterLookup(pending - {endpoint}, platforms, endpoint, pending[endpoint].token, toolName, runtime, upstream)
  }

  /**
   * The call once its pending entry (holding `token`) has been deleted: the
   * pending store stays as it is now, the configuration fetch comes first,
   * and the registration POST, when made, is second and carries the token.
   */
  function CompletedAfterLookup(
    consumed: map<string, Registration>, platforms: map<string, PlatformRecord>,
    endpoint: string, token: string, toolName: string, runtime: Runtime, upstream: Upstream): (o: Completion)
    ensures o.pending == consumed
    ensures |o.effects| > 0 && o.effects[0] == FetchConfiguration(endpoint)
    ensures |o.effects| > 1 ==> o.effects[1].PostRegistration? && o.effects[1].authorization == Bearer(token)
    ensures platforms.Keys <= o.platforms.Keys
    ensures forall k :: k in platforms ==> o.platforms[k] == platforms[k]
    ensures o.platforms == platforms || o.response.Success?
    ensures !UpstreamAnswers(runtime, upstream) ==> o.response.Failure? && o.response.error != PlatformAlreadyRegistered
    ensures UpstreamAnswers(runtime, upstream) ==>
      && |o.effects| == 3 && o.effects[2] == GeneratePlatformKeyPair
      && o == Recorded(consumed, platforms, AnsweredRecord(upstream, toolName), o.effects)
  {
    var fetched := [FetchConfiguration(endpoint)];
    match upstream.configuration
    case None => Completion(Failure(ConfigurationUnavailable), consumed, platforms, fetched)
    case Some(configuration) =>
      match ResolveEndpoints(runtime.resolve, runtime.serverUrl)
      case None => Completion(Failure(InvalidServerUrl), consumed, platforms, fetched)
      case Some(endpoints) =>
        var request := BuildRegistrationRequest(endpoints, runtime.serverUrl, configuration.claimsSupported);
        var posted := fetched + [PostRegistration(configuration.registrationEndpoint, request, Bearer(token))];
        match upstream.clientId
        case None => Completion(Failure(RegistrationRejected), consumed, platforms, posted)
        case Some(clientId) =>
          match configuration.platformConfiguration
          case None => Completion(Failure(MissingPlatformConfiguration), consumed, platforms, posted)
          case Some(platformConfiguration) =>
            var generated := posted + [GeneratePlatformKeyPair];
            match upstream.kid
            case None => Completion(Failure(KeyGenerationFailed), consumed, platforms, generated)
            case Some(kid) =>
              var platform := BuildPlatformRecord(configuration, platformConfiguration.productFamilyCode, clientId, kid, toolName);
              Recorded(consumed, platforms, platform, generated)
  }

  /**
   * The last step: a 409 that writes nothing when the platform key is taken,
   * otherwise the record is stored under its key and nothing else changes.
   */
  function Recorded(
    consumed: map<string, Registration>, platforms: map<string, PlatformRecord>,
    platform: PlatformRecord, effects: seq<Effect>): (o: Completion)
    ensures o.pending == consumed && o.effects == effects
    ensures o.response.Success? <==> RecordKey(platform) !in platforms
    ensures o.response.Failure? ==> o.response.error == PlatformAlreadyRegistered && o.platforms == platforms
    ensures o.response.Success? ==>
      o.response.value == CloseSignal(CloseSubject) &&
      o.platforms.Keys == platforms.Keys + {RecordKey(platform)} && o.platforms[RecordKey(platform)] == platform
    ensures forall k :: k in platforms ==> k in o.platforms && o.platforms[k] == platforms[k]
  {
    var key := PlatformKey(platform.url, platform.clientId);
    if key in platforms then
      Completion(Failure(PlatformAlreadyRegistered), consumed, platforms, effects)
    else
      Completion(Success(CloseSignal(CloseSubject)), consumed, platforms[key := platform], effects)
  }

  // ---- Conditions the properties below are stated under ----

  /** The body parses and names an endpoint with a pending entry. */
  predicate Started(pending: map<string, Registration>, body: Body)
  {
    ParseBody(body).Success? && ParseBody(body).value.configurationEndpoint in pending
  }

  /** The endpoint a parsed body names. */
  function EndpointOf(body: Body): string
    requires ParseBody(body).Success?
  {
    ParseBody(body).value.configurationEndpoint
  }

  /** Every external step answers and the tool's URLs resolve. */
  predicate UpstreamAnswers(runtime: Runtime, upstream: Upstream)
  {
    && upstream.configuration.Some?
    && ResolveEndpoints(runtime.resolve, runtime.serverUrl).Some?
    && upstream.clientId.Some?
    && upstream.configuration.value.platformConfiguration.Some?
    && upstream.kid.Some?
  }

  /** The record built when every external step answered. */
  function AnsweredRecord(upstream: Upstream, toolName: string): PlatformRecord
    requires upstream.configuration.Some? && upstream.clientId.Some?
    requires upstream.configuration.value.platformConfiguration.Some? && upstream.kid.Some?
  {
    var configuration := upstream.configuration.value;
    BuildPlatformRecord(configuration, configuration.platformConfiguration.value.productFamilyCode,
      upstream.clientId.value, upstream.kid.value, toolName)
  }

  /** The platform key of the registration the platform answered. */
  function UpstreamKey(upstream: Upstream): string
    requires upstream.configuration.Some? && upstream.clientId.Some?
  {
    PlatformKey(upstream.configuration.value.issuer, upstream.clientId.value)
  }

  // ---- Per-call properties ----

  /** A body whose fields are not both strings is a 400 that touches nothing and calls nothing. */
  lemma CompletionRejectsInvalidBody(
    pending: map<string, Registration>, platforms: map<string, PlatformRecord>,
    body: Body, runtime: Runtime, upstream: Upstream)
    requires !(body.Fields? && body.endpoint.Str? && body.toolName.Str?)
    ensures Completed(pending, platforms, body, runtime, upstream) == Completion(Failure(InvalidInput), pending, platforms, [])
  {
  }

  /** An endpoint without a pending entry is a 400 "Registration not started" that touches nothing. */
  lemma CompletionRequiresPendingEntry(
    pending: map<string, Registration>, platforms: map<string, PlatformRecord>,
    body: Body, runtime: Runtime, upstream: Upstream)
    requires body.Fields? && body.endpoint.Str? && body.toolName.Str?
    requires body.endpoint.s !in pending
    ensures Completed(pending, platforms, body, runtime, upstream)
      == Completion(Failure(RegistrationNotStarted), pending, platforms, [])
    ensures StatusMessage(RegistrationNotStarted) == Some("Registration not started")
  {
  }

  /**
   * Once the entry is found it is gone, whatever happens next, and every other
   * pending entry is as it was; the first outside call is the configuration fetch.
   */
  lemma CompletionConsumesPendingEntry(
    pending: map<string, Registration>, platforms: map<string, PlatformRecord>,
    body: Body, runtime: Runtime, upstream: Upstream)
    requires Started(pending, body)
    ensures var o := Completed(pending, platforms, body, runtime, upstream);
      && o.pending == pending - {EndpointOf(body)}
      && EndpointOf(body) !in o.pending
      && (forall k :: k in pending && k != EndpointOf(body) ==> k in o.pending && o.pending[k] == pending[k])
      && |o.effects| > 0 && o.effects[0] == FetchConfiguration(EndpointOf(body))
  {
  }

  /**
   * The registration POST goes to the configuration's `registration_endpoint`
   * with the consumed token as bearer credential.  Its body redirects to the
   * launch and deep-link URLs in that order, targets the launch URL, asks for
   * the five scopes, and requests the claims the platform supports.
   */
  lemma CompletionRegistrationRequest(
    pending: map<string, Registration>, platforms: map<string, PlatformRecord>,
    body: Body, runtime: Runtime, upstream: Upstream, i: nat)
    requires Started(pending, body)
    requires var o := Completed(pending, platforms, body, runtime, upstream);
      i < |o.effects| && o.effects[i].PostRegistration?
    ensures upstream.configuration.Some? && ResolveEndpoints(runtime.resolve, runtime.serverUrl).Some?
    ensures var o := Completed(pending, platforms, body, runtime, upstream);
      var configuration := upstream.configuration.value;
      var endpoints := ResolveEndpoints(runtime.resolve, runtime.serverUrl).value;
      var post := o.effects[i];
      && i == 1
      && post.url == configuration.registrationEndpoint
      && post.authorization == Bearer(pending[EndpointOf(body)].token)
      && post.request.redirectUris == [endpoints.launch, endpoints.deepLink]
      && post.request.toolConfiguration.targetLinkUri == endpoints.launch
      && post.request.scope == ScopeValue()
      && post.request.toolConfiguration.claims == configuration.claimsSupported
      && post.request == BuildRegistrationRequest(endpoints, runtime.serverUrl, configuration.claimsSupported)
  {
  }

  /**
   * Each failure after the entry is consumed, with the calls made before it:
   * no platform record is written on any of them.
   */
  lemma CompletionUpstreamFailures(
    pending: map<string, Registration>, platforms: map<string, PlatformRecord>,
    body: Body, runtime: Runtime, upstream: Upstream)
    requires Started(pending, body)
    ensures var o := Completed(pending, platforms, body, runtime, upstream);
      && (upstream.configuration.None? ==>
            o.response == Failure(ConfigurationUnavailable) && |o.effects| == 1)
      && (upstream.configuration.Some? && ResolveEndpoints(runtime.resolve, runtime.serverUrl).None? ==>
            o.response == Failure(InvalidServerUrl) && |o.effects| == 1)
      && (upstream.configuration.Some? && ResolveEndpoints(runtime.resolve, runtime.serverUrl).Some? &&
          upstream.clientId.None? ==>
            o.response == Failure(RegistrationRejected) && |o.effects| == 2 && o.effects[1].PostRegistration?)
      && (upstream.configuration.Some? && ResolveEndpoints(runtime.resolve, runtime.serverUrl).Some? &&
          upstream.clientId.Some? && upstream.configuration.value.platformConfiguration.None? ==>
            o.response == Failure(MissingPlatformConfiguration) && |o.effects| == 2 && o.effects[1].PostRegistration?)
      && (upstream.configuration.Some? && ResolveEndpoints(runtime.resolve, runtime.serverUrl).Some? &&
          upstream.clientId.Some? && upstream.configuration.value.platformConfiguration.Some? &&
          upstream.kid.None? ==>
            o.response == Failure(KeyGenerationFailed) && |o.effects| == 3 &&
            o.effects[1].PostRegistration? && o.effects[2] == GeneratePlatformKeyPair)
      && (o.response.Failure? ==> o.platforms == platforms)
  {
  }

  /**
   * The call is a 409 exactly when every step answered and the platform key
   * is taken; the store is then unchanged, though the key pair was generated.
   */
  lemma CompletionConflict(
    pending: map<string, Registration>, platforms: map<string, PlatformRecord>,
    body: Body, runtime: Runtime, upstream: Upstream)
    ensures var o := Completed(pending, platforms, body, runtime, upstream);
      o.response == Failure(PlatformAlreadyRegistered) <==>
        Started(pending, body) && UpstreamAnswers(runtime, upstream) && UpstreamKey(upstream) in platforms
    ensures var o := Completed(pending, platforms, body, runtime, upstream);
      o.response == Failure(PlatformAlreadyRegistered) ==>
        && o.platforms == platforms
        && GeneratePlatformKeyPair in o.effects
        && Status(PlatformAlreadyRegistered) == 409
        && StatusMessage(PlatformAlreadyRegistered) == Some("Platform already registered")
  {
  }

  /**
   * The call succeeds exactly when every step answered and the platform key
   * is free; the store then gains that one key, holding the record built from
   * the configuration, the client id, the kid and the submitted tool name.
   */
  lemma CompletionRegistersPlatform(
    pending: map<string, Registration>, platforms: map<string, PlatformRecord>,
    body: Body, runtime: Runtime, upstream: Upstream)
    ensures var o := Completed(pending, platforms, body, runtime, upstream);
      o.response.Success? <==>
        Started(pending, body) && UpstreamAnswers(runtime, upstream) && UpstreamKey(upstream) !in platforms
    ensures var o := Completed(pending, platforms, body, runtime, upstream);
      o.response.Success? ==>
        var configuration := upstream.configuration.value;
        var key := UpstreamKey(upstream);
        var p := o.platforms[key];
        && o.response == Success(CloseSignal(CloseSubject))
        && o.platforms.Keys == platforms.Keys + {key}
        && (forall k :: k in platforms ==> o.platforms[k] == platforms[k])
        && p.url == configuration.issuer
        && p.clientId == upstream.clientId.value
        && p.name == configuration.platformConfiguration.value.productFamilyCode
        && p.authenticationEndpoint == configuration.authorizationEndpoint
        && p.accesstokenEndpoint == configuration.tokenEndpoint
        && p.authConfig == AuthConfig(JwkSet, configuration.jwksUri)
        && p.kid == upstream.kid.value
        && p.toolName == ParseBody(body).value.toolName
        && |o.effects| == 3 && o.effects[2] == GeneratePlatformKeyPair
  {
  }

  /** Every record the handler writes sits under its own key. */
  lemma CompletionKeepsKeyedByPair(
    pending: map<string, Registration>, platforms: map<string, PlatformRecord>,
    body: Body, runtime: Runtime, upstream: Upstream)
    requires KeyedByPair(platforms)
    ensures KeyedByPair(Completed(pending, platforms, body, runtime, upstream).platforms)
  {
  }

  /**
   * `POST /continue-registration`, step by step: parse, look up and delete the
   * pending entry, fetch the configuration, POST the registration, generate
   * the key pair, check for the platform key, insert the record.
   */
  method ContinueRegistration(stores: Storage.Stores, body: Body, runtime: Runtime, upstream: Upstream)
    returns (response: Result<CloseSignal, HandlerError>, effects: seq<Effect>)
    requires stores.Valid()
    modifies stores
    ensures stores.Valid()
    ensures var o := Completed(old(stores.pending), old(stores.platforms), body, runtime, upstream);
      && response == o.response && effects == o.effects
      && stores.pending == o.pending && stores.platforms == o.platforms
  {
    effects := [];
    var parsed := ParseBody(body);
    if parsed.Failure? {
      return Failure(parsed.error), effects;
    }
    var configurationEndpoint := parsed.value.configurationEndpoint;
    var toolName := parsed.value.toolName;

    if configurationEndpoint !in stores.pending {
      return Failure(RegistrationNotStarted), effects;
    }
    var registration := stores.pending[configurationEndpoint];
    stores.pending := stores.pending - {configurationEndpoint};
    assert Completed(old(stores.pending), old(stores.platforms), body, runtime, upstream)
      == CompletedAfterLookup(stores.pending, stores.platforms, configurationEndpoint, registration.token, toolName, runtime, upstream);

    effects := effects + [FetchConfiguration(configurationEndpoint)];
    if upstream.configuration.None? {
      return Failure(ConfigurationUnavailable), effects;
    }
    var configuration := upstream.configuration.value;

    var endpoints := ResolveEndpoints(runtime.resolve, runtime.serverUrl);
    if endpoints.None? {
      return Failure(InvalidServerUrl), effects;
    }
    var request := BuildRegistrationRequest(endpoints.value, runtime.serverUrl, configuration.claimsSupported);

    effects := effects + [PostRegistration(configuration.registrationEndpoint, request, Bearer(registration.token))];
    if upstream.clientId.None? {
      return Failure(RegistrationRejected), effects;
    }
    var clientId := upstream.clientId.value;

    if configuration.platformConfiguration.None? {
      return Failure(MissingPlatformConfiguration), effects;
    }
    var platformName := configuration.platformConfiguration.value.productFamilyCode;

    effects := effects + [GeneratePlatformKeyPair];
    if upstream.kid.None? {
      return Failure(KeyGenerationFailed), effects;
    }
    var platform := BuildPlatformRecord(configuration, platformName, clientId, upstream.kid.value, toolName);

    var key := PlatformKey(platform.url, platform.clientId);
    if key in stores.platforms {
      return Failure(PlatformAlreadyRegistered), effects;
    }
    stores.platforms := stores.platforms[key := platform];
    response := Success(CloseSignal(CloseSubject));
  }
}
