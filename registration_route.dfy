/**
 * Phase one of the handshake, the registration initiation request (section
 * 3.3 of IMS LTI Dynamic Registration 1.0): `GET /registration`.
 */
module RegistrationRoute {
  import opened Wrappers
  import opened Lti
  import Storage

  /** The query as it arrives: `openid_configuration` and `registration_token`. */
  datatype Query = Query(openidConfiguration: Value, registrationToken: Value)

  /** The query after the schema parse: a required string and an optional one. */
  datatype InitiationRequest = InitiationRequest(configurationEndpoint: string, registrationToken: Option<string>)

  /**
   * The schema parse: `openid_configuration` must be a string, and
   * `registration_token` either absent or a string.  What the strings hold is
   * not checked.
   */
  function ParseQuery(q: Query): (r: Result<InitiationRequest, HandlerError>)
    ensures r.Success? <==> q.openidConfiguration.Str? && !q.registrationToken.NonString?
    ensures r.Failure? ==> r.error == InvalidInput
    ensures r.Success? ==> r.value.configurationEndpoint == q.openidConfiguration.s
    ensures r.Success? ==> r.value.registrationToken.Some? == q.registrationToken.Str?
    ensures r.Success? && q.registrationToken.Str? ==> r.value.registrationToken.value == q.registrationToken.s
  {
    match (q.openidConfiguration, q.registrationToken)
    case (Str(endpoint), Absent) => Success(InitiationRequest(endpoint, None))
    case (Str(endpoint), Str(token)) => Success(InitiationRequest(endpoint, Some(token)))
    case _ => Failure(InvalidInput)
  }

  /** `registrationToken || ""`: the token, or the empty string when none was given. */
  function StoredToken(token: Option<string>): (stored: string)
    ensures token.Some? ==> stored == token.value
    ensures stored == "" <==> token.None? || token.value == ""
  {
    if token.Some? then token.value else ""
  }

  const ContinuationAction := "/continue-registration"

  /** The form phase one returns: where it posts and the hidden `endpoint` it carries. */
  datatype ContinuationForm = ContinuationForm(action: string, formMethod: string, endpoint: string)

  /** The continuation form for a configuration endpoint. */
  function ContinuationFormFor(configurationEndpoint: string): (f: ContinuationForm)
    ensures f.action == ContinuationAction && f.formMethod == "post"
    ensures f.endpoint == configurationEndpoint
  {
    ContinuationForm(ContinuationAction, "post", configurationEndpoint)
  }

  /** The response of one phase-one call and the pending store after it. */
  datatype Initiation = Initiation(response: Result<ContinuationForm, HandlerError>, pending: map<string, Registration>)

  /**
   * What one phase-one call does to the pending store and answers: it never
   * removes an entry, and changes at most the one its form names.
   */
  function Initiated(pending: map<string, Registration>, q: Query): (o: Initiation)
    ensures o.response.Success? <==> ParseQuery(q).Success?
    ensures pending.Keys <= o.pending.Keys
    ensures o.response.Failure? ==> o.pending == pending
    ensures o.response.Success? ==>
      o.pending.Keys == pending.Keys + {o.response.value.endpoint} &&
      forall k :: k in pending && k != o.response.value.endpoint ==> o.pending[k] == pending[k]
  {
    match ParseQuery(q)
    case Failure(f) => Initiation(Failure(f), pending)
    case Success(request) =>
      Initiation(
        Success(ContinuationFormFor(request.configurationEndpoint)),
        pending[request.configurationEndpoint := Registration(StoredToken(request.registrationToken))])
  }

  /** A query that fails the parse is a 400 and leaves the pending store as it was. */
  lemma InitiationRejectsInvalidQuery(pending: map<string, Registration>, q: Query)
    requires !q.openidConfiguration.Str? || q.registrationToken.NonString?
    ensures Initiated(pending, q) == Initiation(Failure(InvalidInput), pending)
    ensures Status(InvalidInput) == 400
  {
  }

  /**
   * A valid query upserts `{token}` under the endpoint, with "" for a missing
   * token, leaves every other entry alone, and answers with the form that
   * carries the endpoint to the completion route.
   */
  lemma InitiationUpserts(pending: map<string, Registration>, q: Query)
    requires q.openidConfiguration.Str? && !q.registrationToken.NonString?
    ensures var o := Initiated(pending, q);
      var endpoint := q.openidConfiguration.s;
      && o.response == Success(ContinuationForm(ContinuationAction, "post", endpoint))
      && o.pending.Keys == pending.Keys + {endpoint}
      && o.pending[endpoint] == Registration(if q.registrationToken.Str? then q.registrationToken.s else "")
      && forall k :: k in pending && k != endpoint ==> o.pending[k] == pending[k]
  {
  }

  /**
   * `GET /registration`: parse the query, upsert the pending entry, answer with
   * the continuation form.  It touches the pending store only, and makes no
   * network call and no key.
   */
  method HandleRegistration(stores: Storage.Stores, q: Query) returns (response: Result<ContinuationForm, HandlerError>)
    requires stores.Valid()
    modifies stores`pending
    ensures stores.Valid()
    ensures var o := Initiated(old(stores.pending), q);
      response == o.response && stores.pending == o.pending
  {
    var parsed := ParseQuery(q);
    if parsed.Failure? {
      return Failure(parsed.error);
    }
    var configurationEndpoint := parsed.value.configurationEndpoint;
    stores.pending := stores.pending[configurationEndpoint := Registration(StoredToken(parsed.value.registrationToken))];
    response := Success(ContinuationFormFor(configurationEndpoint));
  }
}
