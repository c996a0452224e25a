/**
 * Properties of the two phases run one after the other: the form phase one
 * returns leads into phase two, a pending entry serves one completion only,
 * the latest initiation wins, and a platform registers once.
 */
module Handshake {
  import opened Wrappers
  import opened Lti
  import opened Platforms
  import opened RegistrationRoute
  import opened ContinueRegistrationRoute

  /** The browser submitting the continuation form with the tool name the user typed. */
  function Submit(form: ContinuationForm, toolName: string): (b: Body)
    ensures ParseBody(b) == Success(ContinuationRequest(form.endpoint, toolName))
  {
    Fields(Str(form.endpoint), Str(toolName))
  }

  /**
   * Submitting the form of a successful initiation always gets past the
   * parse and the lookup, even with an empty token: the completion fetches
   * the endpoint's configuration, registers with the token phase one stored,
   * and leaves no pending entry for the endpoint.
   */
  lemma InitiationEnablesCompletion(
    pending: map<string, Registration>, platforms: map<string, PlatformRecord>,
    q: Query, toolName: string, runtime: Runtime, upstream: Upstream)
    requires q.openidConfiguration.Str? && !q.registrationToken.NonString?
    ensures Initiated(pending, q).response.Success?
    ensures var i := Initiated(pending, q);
      var endpoint := q.openidConfiguration.s;
      var o := Completed(i.pending, platforms, Submit(i.response.value, toolName), runtime, upstream);
      && o.response != Failure(InvalidInput)
      && o.response != Failure(RegistrationNotStarted)
      && |o.effects| > 0 && o.effects[0] == FetchConfiguration(endpoint)
      && (|o.effects| > 1 ==>
            && o.effects[1].PostRegistration?
            && o.effects[1].authorization == Bearer(if q.registrationToken.Str? then q.registrationToken.s else ""))
      && o.pending == pending - {endpoint}
  {
  }

  /**
   * A pending entry serves one completion: after any phase-two call for an
   * endpoint, successful or not, the next one for the same endpoint is a 400
   * "Registration not started" that changes nothing.
   */
  lemma CompletionIsSingleUse(
    pending: map<string, Registration>, platforms: map<string, PlatformRecord>,
    endpoint: string, toolName1: string, runtime1: Runtime, upstream1: Upstream,
    toolName2: string, runtime2: Runtime, upstream2: Upstream)
    ensures var o1 := Completed(pending, platforms, Fields(Str(endpoint), Str(toolName1)), runtime1, upstream1);
      var o2 := Completed(o1.pending, o1.platforms, Fields(Str(endpoint), Str(toolName2)), runtime2, upstream2);
      o2 == Completion(Failure(RegistrationNotStarted), o1.pending, o1.platforms, [])
  {
    var body1 := Fields(Str(endpoint), Str(toolName1));
    if Started(pending, body1) {
      CompletionConsumesPendingEntry(pending, platforms, body1, runtime1, upstream1);
    }
  }

  /**
   * Initiating twice for one endpoint keeps only the latest token: the store
   * is what the second call alone would have made of the original one.
   */
  lemma LatestInitiationWins(pending: map<string, Registration>, endpoint: string, token1: Value, token2: Value)
    requires !token1.NonString? && !token2.NonString?
    ensures var p1 := Initiated(pending, Query(Str(endpoint), token1)).pending;
      var p2 := Initiated(p1, Query(Str(endpoint), token2)).pending;
      && p2 == Initiated(pending, Query(Str(endpoint), token2)).pending
      && p2.Keys == pending.Keys + {endpoint}
      && p2[endpoint] == Registration(if token2.Str? then token2.s else "")
  {
  }

  /**
   * Once a platform is registered, a new handshake whose platform answers
   * with the same issuer and client id ends in a 409 and writes nothing; the
   * second handshake's key pair is still generated.
   */
  lemma ReRegistrationConflicts(
    pending: map<string, Registration>, platforms: map<string, PlatformRecord>,
    body: Body, runtime: Runtime, upstream: Upstream,
    q: Query, toolName: string, runtime2: Runtime, upstream2: Upstream)
    requires Completed(pending, platforms, body, runtime, upstream).response.Success?
    requires q.openidConfiguration.Str? && !q.registrationToken.NonString?
    requires UpstreamAnswers(runtime2, upstream2)
    requires upstream.configuration.Some? && upstream.clientId.Some?
    requires upstream2.configuration.value.issuer == upstream.configuration.value.issuer
    requires upstream2.clientId == upstream.clientId
    ensures var o1 := Completed(pending, platforms, body, runtime, upstream);
      var i := Initiated(o1.pending, q);
      i.response.Success? &&
      var o2 := Completed(i.pending, o1.platforms, Submit(i.response.value, toolName), runtime2, upstream2);
      && o2.response == Failure(PlatformAlreadyRegistered)
      && o2.platforms == o1.platforms
      && GeneratePlatformKeyPair in o2.effects
  {
  }

  /**
   * Because the key joins issuer and client id with a colon, a platform whose
   * pair was never registered can still be turned away with a 409: a record
   * for (url + ":" + a, b) blocks an answer of (url, a + ":" + b).
   */
  lemma ColonShiftConflicts(
    pending: map<string, Registration>, platforms: map<string, PlatformRecord>,
    body: Body, runtime: Runtime, upstream: Upstream, url: string, a: string, b: string)
    requires KeyedByPair(platforms)
    requires var key := PlatformKey(url + ":" + a, b);
      key in platforms && platforms[key].url == url + ":" + a && platforms[key].clientId == b
    requires Started(pending, body) && UpstreamAnswers(runtime, upstream)
    requires upstream.configuration.value.issuer == url
    requires upstream.clientId == Some(a + ":" + b)
    ensures Completed(pending, platforms, body, runtime, upstream).response == Failure(PlatformAlreadyRegistered)
    ensures forall k :: k in platforms ==>
      (platforms[k].url, platforms[k].clientId) != (url, a + ":" + b)
  {
    PlatformKeyCollision(url, a, b);
    CompletionConflict(pending, platforms, body, runtime, upstream);
  }

  /**
   * An instance of the collision: ("https://lms.example", "8443:abc") is
   * refused because ("https://lms.example:8443", "abc") is registered.
   */
  lemma DistinctPairCanConflict(
    pending: map<string, Registration>, platforms: map<string, PlatformRecord>,
    body: Body, runtime: Runtime, upstream: Upstream)
    requires KeyedByPair(platforms)
    requires var key := PlatformKey("https://lms.example:8443", "abc");
      key in platforms && platforms[key].url == "https://lms.example:8443" && platforms[key].clientId == "abc"
    requires Started(pending, body) && UpstreamAnswers(runtime, upstream)
    requires upstream.configuration.value.issuer == "https://lms.example"
    requires upstream.clientId == Some("8443:abc")
    ensures Completed(pending, platforms, body, runtime, upstream).response == Failure(PlatformAlreadyRegistered)
    ensures forall k :: k in platforms ==>
      (platforms[k].url, platforms[k].clientId) != ("https://lms.example", "8443:abc")
  {
    assert "https://lms.example" + ":" + "8443" == "https://lms.example:8443";
    assert "8443" + ":" + "abc" == "8443:abc";
    ColonShiftConflicts(pending, platforms, body, runtime, upstream, "https://lms.example", "8443", "abc");
  }
}
