/** The server address rewrite done once in the constructor
    (src/renderer/socket.ts:19): `serverURL.replace(/^http/, 'ws')`. The
    pattern is anchored at the start of the string, case-sensitive, and not
    global, so at most the first four characters change. */
module Address {

  predicate StartsWith(s: string, prefix: string) {
    |prefix| <= |s| && s[..|prefix|] == prefix
  }

  const HttpPrefix: string := "http"
  const WsPrefix: string := "ws"

  /** The address the socket actually connects to. */
  function NormalizeUrl(url: string): (r: string)
    ensures !StartsWith(r, HttpPrefix)
    ensures StartsWith(url, HttpPrefix) ==>
              StartsWith(r, WsPrefix) && r[|WsPrefix|..] == url[|HttpPrefix|..]
              && |r| == |url| - 2
    ensures !StartsWith(url, HttpPrefix) ==> r == url
  {
    if StartsWith(url, HttpPrefix) then
      var r := WsPrefix + url[|HttpPrefix|..];
      assert r[0] != HttpPrefix[0];
      r
    else
      url
  }

  /** Rewriting an already rewritten address changes nothing. */
  lemma NormalizeIdempotent(url: string)
    ensures NormalizeUrl(NormalizeUrl(url)) == NormalizeUrl(url)
  {
  }

  /** The rewrite is injective on addresses that begin with "http". */
  lemma NormalizeInjectiveOnHttp(u: string, v: string)
    requires StartsWith(u, HttpPrefix) && StartsWith(v, HttpPrefix)
    ensures NormalizeUrl(u) == NormalizeUrl(v) <==> u == v
  {
  }

  /** An HTTPS address becomes the matching secure WebSocket address. */
  lemma NormalizeHttpsExample()
    ensures NormalizeUrl("https://example.com/") == "wss://example.com/"
  {
  }

  /** Only a lower-case "http" at the very start is rewritten: other schemes,
      upper case, and "http" in the middle pass through unchanged. */
  lemma NormalizePassThroughExamples()
    ensures NormalizeUrl("wss://host") == "wss://host"
    ensures NormalizeUrl("HTTP://host") == "HTTP://host"
    ensures NormalizeUrl("ws://httphost") == "ws://httphost"
  {
  }

  /** The pattern is not tied to a scheme separator: any leading "http" goes. */
  lemma NormalizeBarePrefixExample()
    ensures NormalizeUrl("httpfoo") == "wsfoo"
  {
  }
}
