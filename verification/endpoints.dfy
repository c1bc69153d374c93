/** The two region-to-endpoint builders of the library crate (src/lib.rs).
    Each places the region between a fixed scheme prefix and a fixed host
    and path suffix; `RegionOf` undoes that placement. */
module Endpoints {
  import opened Wrappers
  import opened Text

  const WebsocketPrefix: string := "wss://"
  const WebsocketSuffix: string := ".tts.speech.microsoft.com/cognitiveservices/websocket/v1"
  const RestPrefix: string := "https://"
  const RestSuffix: string := ".tts.speech.microsoft.com/cognitiveservices/v1"

  /** `format!("{prefix}{region}{suffix}")`. */
  function Surround(prefix: string, region: string, suffix: string): (url: string)
    ensures StartsWith(url, prefix) && EndsWith(url, suffix)
    ensures |url| == |prefix| + |region| + |suffix|
  {
    StartsWithAppend(prefix, region + suffix);
    EndsWithAppend(prefix + region, suffix);
    assert prefix + region + suffix == prefix + (region + suffix);
    prefix + region + suffix
  }

  /** The region an endpoint URL was built from, if it has the given shape. */
  function RegionOf(prefix: string, suffix: string, url: string): (r: Option<string>)
    ensures r.Some? <==> |prefix| + |suffix| <= |url| && StartsWith(url, prefix) && EndsWith(url, suffix)
  {
    if |prefix| + |suffix| <= |url| && StartsWith(url, prefix) && EndsWith(url, suffix)
    then Some(url[|prefix|..|url| - |suffix|])
    else None
  }

  /** The official websocket endpoint of a region. */
  function WebsocketEndpoint(region: string): (url: string)
    ensures StartsWith(url, WebsocketPrefix) && EndsWith(url, WebsocketSuffix)
    ensures |url| == |WebsocketPrefix| + |region| + |WebsocketSuffix|
  {
    Surround(WebsocketPrefix, region, WebsocketSuffix)
  }

  /** The official REST endpoint of a region. */
  function RestEndpoint(region: string): (url: string)
    ensures StartsWith(url, RestPrefix) && EndsWith(url, RestSuffix)
    ensures |url| == |RestPrefix| + |region| + |RestSuffix|
  {
    Surround(RestPrefix, region, RestSuffix)
  }

  /** Reading the region back out of a built endpoint gives the region. */
  lemma SurroundRoundTrip(prefix: string, region: string, suffix: string)
    ensures RegionOf(prefix, suffix, Surround(prefix, region, suffix)) == Some(region)
  {
    var url := Surround(prefix, region, suffix);
    assert url[..|prefix|] == prefix;
    assert url[|url| - |suffix|..] == suffix;
    assert url[|prefix|..|url| - |suffix|] == region;
  }

  /** Any URL of the endpoint shape is the endpoint of the region read from it. */
  lemma RegionOfRoundTrip(prefix: string, suffix: string, url: string)
    requires RegionOf(prefix, suffix, url).Some?
    ensures Surround(prefix, RegionOf(prefix, suffix, url).value, suffix) == url
  {
    var region := url[|prefix|..|url| - |suffix|];
    assert url == url[..|prefix|] + region + url[|url| - |suffix|..];
  }

  lemma WebsocketEndpointRoundTrip(region: string)
    ensures RegionOf(WebsocketPrefix, WebsocketSuffix, WebsocketEndpoint(region)) == Some(region)
  {
    SurroundRoundTrip(WebsocketPrefix, region, WebsocketSuffix);
  }

  lemma RestEndpointRoundTrip(region: string)
    ensures RegionOf(RestPrefix, RestSuffix, RestEndpoint(region)) == Some(region)
  {
    SurroundRoundTrip(RestPrefix, region, RestSuffix);
  }

  /** Distinct regions never share a websocket endpoint. */
  lemma WebsocketEndpointInjective(a: string, b: string)
    ensures WebsocketEndpoint(a) == WebsocketEndpoint(b) <==> a == b
  {
    if WebsocketEndpoint(a) == WebsocketEndpoint(b) {
      WebsocketEndpointRoundTrip(a);
      WebsocketEndpointRoundTrip(b);
    }
  }

  /** Distinct regions never share a REST endpoint. */
  lemma RestEndpointInjective(a: string, b: string)
    ensures RestEndpoint(a) == RestEndpoint(b) <==> a == b
  {
    if RestEndpoint(a) == RestEndpoint(b) {
      RestEndpointRoundTrip(a);
      RestEndpointRoundTrip(b);
    }
  }

  /** The same region never yields the same URL for both transports. */
  lemma TransportsDiffer(a: string, b: string)
    ensures WebsocketEndpoint(a) != RestEndpoint(b)
  {
    var w := WebsocketEndpoint(a);
    var r := RestEndpoint(b);
    assert w[0] == 'w' && r[0] == 'h';
  }
}
