/**
 * Types shared by the two registration routes: request fields as the schema
 * parser sees them, the pending registration, the platform's OpenID
 * configuration document, and the errors the handlers raise.
 */
module Lti {
  import opened Wrappers

  /** A field of a query or body: absent, a string, or present with another JSON type. */
  datatype Value = Absent | Str(s: string) | NonString

  /** What phase one stores per configuration endpoint. */
  datatype Registration = Registration(token: string)

  /** The `https://purl.imsglobal.org/spec/lti-platform-configuration` member of the configuration. */
  datatype PlatformConfiguration = PlatformConfiguration(productFamilyCode: string)

  /**
   * The platform's OpenID configuration as the completion handler reads it.
   * `platformConfiguration` is None when the document lacks the LTI member.
   */
  datatype Configuration = Configuration(
    issuer: string,
    tokenEndpoint: string,
    jwksUri: string,
    authorizationEndpoint: string,
    registrationEndpoint: string,
    claimsSupported: seq<string>,
    platformConfiguration: Option<PlatformConfiguration>)

  /** Why a handler call ends without its normal response. */
  datatype HandlerError =
    | InvalidInput                  // the schema parse failed
    | RegistrationNotStarted        // no pending entry for the endpoint
    | ConfigurationUnavailable      // the configuration fetch threw
    | InvalidServerUrl              // resolving the tool's URLs against serverUrl threw
    | RegistrationRejected          // the registration POST threw
    | MissingPlatformConfiguration  // reading product_family_code threw
    | KeyGenerationFailed           // generating the key pair threw
    | PlatformAlreadyRegistered     // a record exists under the platform key

  /** The HTTP status: the two 400s and the 409 the handlers raise; anything uncaught is a 500. */
  function Status(f: HandlerError): (code: int)
    ensures code == 400 <==> f == InvalidInput || f == RegistrationNotStarted
    ensures code == 409 <==> f == PlatformAlreadyRegistered
    ensures code == 400 || code == 409 || code == 500
  {
    match f
    case InvalidInput => 400
    case RegistrationNotStarted => 400
    case PlatformAlreadyRegistered => 409
    case _ => 500
  }

  /** The status message the handlers set themselves (the schema parser's message is not modelled). */
  function StatusMessage(f: HandlerError): (m: Option<string>)
    ensures m.Some? <==> f == RegistrationNotStarted || f == PlatformAlreadyRegistered
    ensures m.Some? ==> Status(f) == (if f == RegistrationNotStarted then 400 else 409)
  {
    match f
    case RegistrationNotStarted => Some("Registration not started")
    case PlatformAlreadyRegistered => Some("Platform already registered")
    case _ => None
  }
}
