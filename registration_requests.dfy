/**
 * The client-registration request the tool POSTs to the platform (the
 * metadata of section 3.1 of OpenID Connect Dynamic Client Registration 1.0
 * with the LTI tool-configuration member of IMS LTI Dynamic Registration 1.0).
 */
module RegistrationRequests {
  import opened Wrappers
  import Text

  /** The common prefix of IMS specification URIs. */
  const ImsSpec := "https://purl.imsglobal.org/spec/"

  /** The five scopes the tool asks for, in this order. */
  const RequestedScopes: seq<string> := [
    ImsSpec + "lti-ags/scope/lineitem.readonly",
    ImsSpec + "lti-ags/scope/lineitem",
    ImsSpec + "lti-ags/scope/score",
    ImsSpec + "lti-ags/scope/result.readonly",
    ImsSpec + "lti-nrps/scope/contextmembership.readonly"
  ]

  const ClientName := "Nuxt LTI Tool"
  const LogoUri := "https://nuxtjs.ir/logos/nuxt-icon-white.png"
  const Description := "Example Nuxt LTI Tool for testing purposes"
  const ResourceLinkRequest := "LtiResourceLinkRequest"
  const DeepLinkingRequest := "LtiDeepLinkingRequest"

  /** The tool's own URLs, each resolved against the configured server URL. */
  datatype ToolEndpoints = ToolEndpoints(launch: string, deepLink: string, login: string, keys: string)

  /**
   * `new URL(path, serverUrl).href` for the four paths, in source order.
   * `resolve` stands for WHATWG URL resolution; None means the constructor threw.
   */
  function ResolveEndpoints(resolve: (string, string) -> Option<string>, serverUrl: string): (r: Option<ToolEndpoints>)
    ensures r.Some? <==>
      && resolve("launch", serverUrl).Some? && resolve("deep-link-launch", serverUrl).Some?
      && resolve("login", serverUrl).Some? && resolve("keys", serverUrl).Some?
    ensures r.Some? ==>
      && r.value.launch == resolve("launch", serverUrl).value
      && r.value.deepLink == resolve("deep-link-launch", serverUrl).value
      && r.value.login == resolve("login", serverUrl).value
      && r.value.keys == resolve("keys", serverUrl).value
  {
    var launch := resolve("launch", serverUrl);
    var deepLink := resolve("deep-link-launch", serverUrl);
    var login := resolve("login", serverUrl);
    var keys := resolve("keys", serverUrl);
    if launch.Some? && deepLink.Some? && login.Some? && keys.Some? then
      Some(ToolEndpoints(launch.value, deepLink.value, login.value, keys.value))
    else
      None
  }

  /** An entry of `messages`: its `type` and, for deep linking, its own `target_link_uri`. */
  datatype Message = Message(messageType: string, targetLinkUri: Option<string>)

  /** The `https://purl.imsglobal.org/spec/lti-tool-configuration` member. */
  datatype ToolConfiguration = ToolConfiguration(
    domain: string,
    description: string,
    targetLinkUri: string,
    customParameters: map<string, string>,
    claims: seq<string>,
    messages: seq<Message>)

  datatype RegistrationRequest = RegistrationRequest(
    applicationType: string,
    grantTypes: seq<string>,
    responseTypes: seq<string>,
    redirectUris: seq<string>,
    initiateLoginUri: string,
    clientName: string,
    jwksUri: string,
    logoUri: string,
    tokenEndpointAuthMethod: string,
    scope: string,
    toolConfiguration: ToolConfiguration)

  /** The `scope` member: the requested scopes joined by single spaces. */
  function ScopeValue(): string
  {
    Text.Join(RequestedScopes, ' ')
  }

  /** A platform reading `scope` as a space-separated list gets exactly the five scopes, in order. */
  lemma ScopeRoundTrip()
    ensures Text.Split(ScopeValue(), ' ') == RequestedScopes
  {
    ScopesWithoutSpaces();
    Text.SplitJoin(RequestedScopes, ' ');
  }

  /** No requested scope contains a space, so none is cut apart by the split. */
  lemma ScopesWithoutSpaces()
    ensures forall i :: 0 <= i < |RequestedScopes| ==> ' ' !in RequestedScopes[i]
  {
    assert SpaceFree(ImsSpec);
    assert SpaceFree("lti-ags/scope/lineitem.readonly");
    assert SpaceFree("lti-ags/scope/lineitem");
    assert SpaceFree("lti-ags/scope/score");
    assert SpaceFree("lti-ags/scope/result.readonly");
    assert SpaceFree("lti-nrps/scope/contextmembership.readonly");
  }

  /** No character of `s` is a space, stated position by position. */
  predicate SpaceFree(s: string)
  {
    forall j :: 0 <= j < |s| ==> s[j] != ' '
  }

  /**
   * The request built from the tool's URLs, the server URL and the claims the
   * platform supports.
   */
  function BuildRegistrationRequest(endpoints: ToolEndpoints, serverUrl: string, claimsSupported: seq<string>): (r: RegistrationRequest)
    ensures r.redirectUris == [endpoints.launch, endpoints.deepLink]
    ensures r.toolConfiguration.targetLinkUri == endpoints.launch
    ensures r.initiateLoginUri == endpoints.login && r.jwksUri == endpoints.keys
    ensures r.scope == ScopeValue()
    ensures r.toolConfiguration.claims == claimsSupported
    ensures r.toolConfiguration.domain == serverUrl
    ensures r.toolConfiguration.messages ==
      [Message(ResourceLinkRequest, None), Message(DeepLinkingRequest, Some(endpoints.deepLink))]
    ensures r.tokenEndpointAuthMethod == "private_key_jwt"
    ensures r.grantTypes == ["implicit", "client_credentials"] && r.responseTypes == ["id_token"]
    ensures r.applicationType == "web"
    ensures r.clientName == "Nuxt LTI Tool"
    ensures r.logoUri == "https://nuxtjs.ir/logos/nuxt-icon-white.png"
    ensures r.toolConfiguration.description == "Example Nuxt LTI Tool for testing purposes"
    ensures r.toolConfiguration.customParameters == map[]
  {
    RegistrationRequest(
      applicationType := "web",
      grantTypes := ["implicit", "client_credentials"],
      responseTypes := ["id_token"],
      redirectUris := [endpoints.launch, endpoints.deepLink],
      initiateLoginUri := endpoints.login,
      clientName := ClientName,
      jwksUri := endpoints.keys,
      logoUri := LogoUri,
      tokenEndpointAuthMethod := "private_key_jwt",
      scope := ScopeValue(),
      toolConfiguration := ToolConfiguration(
        domain := serverUrl,
        description := Description,
        targetLinkUri := endpoints.launch,
        customParameters := map[],
        claims := claimsSupported,
        messages := [Message(ResourceLinkRequest, None), Message(DeepLinkingRequest, Some(endpoints.deepLink))]))
  }
}
