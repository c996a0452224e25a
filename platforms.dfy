/**
 * The platform record the completion handler persists, and the string key it
 * is stored under: the issuer and the client id joined by a colon.
 */
module Platforms {
  import opened Lti

  const JwkSet := "JWK_SET"

  /** How the tool verifies the platform's tokens (`method` in the source): a JWK set at `key`. */
  datatype AuthConfig = AuthConfig(authMethod: string, key: string)

  datatype PlatformRecord = PlatformRecord(
    url: string,
    name: string,
    clientId: string,
    authenticationEndpoint: string,
    accesstokenEndpoint: string,
    authConfig: AuthConfig,
    kid: string,
    toolName: string)

  /** The platform store's key, `${url}:${clientId}`: the url, one colon, the client id. */
  function PlatformKey(url: string, clientId: string): (k: string)
    ensures |k| == |url| + 1 + |clientId|
    ensures k[..|url|] == url && k[|url|] == ':' && k[|url| + 1..] == clientId
  {
    url + ":" + clientId
  }

  /** The key a record is stored under. */
  function RecordKey(p: PlatformRecord): string
  {
    PlatformKey(p.url, p.clientId)
  }

  /** Every record of the store sits under the key made from its own url and client id. */
  predicate KeyedByPair(platforms: map<string, PlatformRecord>)
  {
    forall k :: k in platforms ==> k == RecordKey(platforms[k])
  }

  /**
   * The record for a platform whose configuration was fetched and which
   * answered the registration with `clientId`.
   */
  function BuildPlatformRecord(configuration: Configuration, platformName: string, clientId: string, kid: string, toolName: string): (p: PlatformRecord)
    ensures p.url == configuration.issuer && p.clientId == clientId
    ensures p.name == platformName && p.toolName == toolName && p.kid == kid
    ensures p.authenticationEndpoint == configuration.authorizationEndpoint
    ensures p.accesstokenEndpoint == configuration.tokenEndpoint
    ensures p.authConfig == AuthConfig(JwkSet, configuration.jwksUri)
    ensures RecordKey(p) == PlatformKey(configuration.issuer, clientId)
  {
    PlatformRecord(
      url := configuration.issuer,
      name := platformName,
      clientId := clientId,
      authenticationEndpoint := configuration.authorizationEndpoint,
      accesstokenEndpoint := configuration.tokenEndpoint,
      authConfig := AuthConfig(JwkSet, configuration.jwksUri),
      kid := kid,
      toolName := toolName)
  }

  /** The text after the last colon of a key (all of it when it has none). */
  function KeyClientId(key: string): (c: string)
    ensures |c| <= |key| && c == key[|key| - |c|..]
    ensures ':' !in c
    ensures |c| < |key| ==> key[|key| - |c| - 1] == ':'
  {
    if |key| == 0 || key[|key| - 1] == ':' then ""
    else KeyClientId(key[..|key| - 1]) + [key[|key| - 1]]
  }

  /** A colon-free client id is read back from the key it was joined into. */
  lemma {:induction false} KeyClientIdOfKey(url: string, clientId: string)
    requires ':' !in clientId
    ensures KeyClientId(PlatformKey(url, clientId)) == clientId
  {
    var key := PlatformKey(url, clientId);
    if |clientId| == 0 {
      assert key[|key| - 1] == ':';
    } else {
      var front := clientId[..|clientId| - 1];
      assert key[..|key| - 1] == PlatformKey(url, front);
      assert ':' !in front;
      KeyClientIdOfKey(url, front);
      assert front + [clientId[|clientId| - 1]] == clientId;
    }
  }

  /** The key determines the pair as long as client ids hold no colon (issuers do: "https:"). */
  lemma PlatformKeyInjective(url1: string, clientId1: string, url2: string, clientId2: string)
    requires ':' !in clientId1 && ':' !in clientId2
    requires PlatformKey(url1, clientId1) == PlatformKey(url2, clientId2)
    ensures url1 == url2 && clientId1 == clientId2
  {
    var key := PlatformKey(url1, clientId1);
    KeyClientIdOfKey(url1, clientId1);
    KeyClientIdOfKey(url2, clientId2);
    assert url1 == key[..|url1|] == url2;
  }

  /**
   * Without that restriction two different pairs share a key: a colon can be
   * moved between the end of the url and the start of the client id.
   */
  lemma PlatformKeyCollision(url: string, a: string, b: string)
    ensures (url + ":" + a, b) != (url, a + ":" + b)
    ensures PlatformKey(url + ":" + a, b) == PlatformKey(url, a + ":" + b)
  {
    assert |url + ":" + a| != |url|;
  }

  /**
   * In a store keyed by pair, with colon-free client ids, the key of
   * `(issuer, clientId)` is present exactly when a record for that pair is present.
   */
  lemma KeyPresentIffPairRegistered(platforms: map<string, PlatformRecord>, issuer: string, clientId: string)
    requires KeyedByPair(platforms)
    requires ':' !in clientId
    requires forall k :: k in platforms ==> ':' !in platforms[k].clientId
    ensures PlatformKey(issuer, clientId) in platforms <==>
      exists k :: k in platforms && platforms[k].url == issuer && platforms[k].clientId == clientId
  {
    var key := PlatformKey(issuer, clientId);
    if k :| k in platforms && platforms[k].url == issuer && platforms[k].clientId == clientId {
      assert k == key;
    }
    if key in platforms {
      var p := platforms[key];
      PlatformKeyInjective(issuer, clientId, p.url, p.clientId);
    }
  }

  /** No two records of a store keyed by pair share their (url, client id) pair. */
  lemma RecordsHaveDistinctPairs(platforms: map<string, PlatformRecord>, k1: string, k2: string)
    requires KeyedByPair(platforms)
    requires k1 in platforms && k2 in platforms && k1 != k2
    ensures (platforms[k1].url, platforms[k1].clientId) != (platforms[k2].url, platforms[k2].clientId)
  {
  }
}
