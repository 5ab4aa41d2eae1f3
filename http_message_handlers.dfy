/**
 * The HTTP chain of responsibility: a firewall that answers requests for
 * blocked hosts itself, and a cache of successful GET responses in front of
 * the handler that goes to the network.  The network end is a function from
 * request to response that counts its calls; sending, cloning and cache
 * expiry are not part of this model.
 */
module HttpMessageHandlers {
  import opened Outcomes
  import opened Text

  datatype HttpMethod = Get | Head | Post | Put | Patch | Delete | Options

  /** A request URI: `ToString()` is `text`, and `Host` is `host`. */
  datatype Uri = Uri(text: string, host: string)

  /** `verb` is the request's `Method`. */
  datatype Request = Request(verb: HttpMethod, requestUri: Option<Uri>)

  datatype Response = Response(statusCode: int, content: string)

  const OK := 200
  const BadRequest := 400
  const Forbidden := 403

  predicate IsSuccessStatusCode(statusCode: int) {
    200 <= statusCode <= 299
  }

  /** `request.RequestUri?.Host.ToLowerInvariant()`, with `None` for a missing URI. */
  function LowerHost(request: Request): Option<string> {
    if request.requestUri.None? then None else Some(ToLower(request.requestUri.value.host))
  }

  /**
   * The firewall's answer: a 400 for a missing or empty host, a 403 for a
   * host in the blocked set, and `None` when the request goes on down the
   * chain.
   */
  function Firewall(blockedHosts: set<string>, request: Request): Option<Response> {
    var host := LowerHost(request);
    if host.None? || host.value == "" then Some(Response(BadRequest, "Invalid request URI"))
    else if host.value in blockedHosts then Some(Response(Forbidden, "Access to " + host.value + " is blocked by firewall"))
    else None
  }

  /** The three outcomes of the firewall, each with the exact condition that leads to it. */
  lemma FirewallDecision(blockedHosts: set<string>, request: Request)
    ensures Firewall(blockedHosts, request) == Some(Response(BadRequest, "Invalid request URI"))
      <==> request.requestUri.None? || request.requestUri.value.host == ""
    ensures (Firewall(blockedHosts, request).Some? && Firewall(blockedHosts, request).value.statusCode == Forbidden)
      <==> request.requestUri.Some? && request.requestUri.value.host != ""
           && ToLower(request.requestUri.value.host) in blockedHosts
    ensures Firewall(blockedHosts, request).None?
      <==> request.requestUri.Some? && request.requestUri.value.host != ""
           && ToLower(request.requestUri.value.host) !in blockedHosts
  {
  }

  lemma ToLowerCharIdempotent(c: char)
    ensures ToLowerChar(ToLowerChar(c)) == ToLowerChar(c)
  {
  }

  /** Lower-casing twice is lower-casing once. */
  lemma ToLowerIdempotent(s: string)
    ensures ToLower(ToLower(s)) == ToLower(s)
  {
    forall i | 0 <= i < |s|
      ensures ToLower(ToLower(s))[i] == ToLower(s)[i]
    {
      ToLowerCharIdempotent(s[i]);
    }
  }

  lemma ToLowerAppend(a: string, b: string)
    ensures ToLower(a + b) == ToLower(a) + ToLower(b)
  {
  }

  /** Hosts are compared after lower-casing, so a host's letter case never changes the firewall's answer. */
  lemma FirewallIgnoresHostCase(blockedHosts: set<string>, verb: HttpMethod, text: string, host: string)
    ensures Firewall(blockedHosts, Request(verb, Some(Uri(text, host))))
         == Firewall(blockedHosts, Request(verb, Some(Uri(text, ToLower(host)))))
  {
    ToLowerIdempotent(host);
  }

  /** A blocked-set entry with an upper-case letter never matches: such an entry blocks nothing. */
  lemma UppercaseEntryNeverMatches(entry: string, request: Request)
    requires exists i :: 0 <= i < |entry| && 'A' <= entry[i] <= 'Z'
    ensures LowerHost(request) != Some(entry)
  {
    var i :| 0 <= i < |entry| && 'A' <= entry[i] <= 'Z';
    if request.requestUri.Some? {
      var lower := ToLower(request.requestUri.value.host);
      if i < |lower| {
        assert lower[i] != entry[i];
      }
    }
  }

  /** `request.RequestUri?.ToString()`, with "" standing for both null and empty. */
  function CacheKey(request: Request): string {
    if request.requestUri.None? then "" else request.requestUri.value.text
  }

  /** What the caching handler does: the response, the new cache, and how many times it called the inner handler. */
  datatype CacheStep = CacheStep(response: Response, cache: map<string, Response>, innerCalls: nat)

  /**
   * The caching handler's decision: non-GET requests and GETs without a
   * key go straight through; a cached key is answered from the cache; a
   * miss goes through and stores the response when it is a success.
   */
  function Cached(cache: map<string, Response>, request: Request, respond: Request -> Response): CacheStep {
    var key := CacheKey(request);
    if request.verb != Get || key == "" then CacheStep(respond(request), cache, 1)
    else if key in cache then CacheStep(cache[key], cache, 0)
    else
      var response := respond(request);
      CacheStep(response, if IsSuccessStatusCode(response.statusCode) then cache[key := response] else cache, 1)
  }

  /** Only successful GET responses with a key are ever stored, and nothing is ever evicted. */
  lemma CachePolicy(cache: map<string, Response>, request: Request, respond: Request -> Response)
    ensures var r := Cached(cache, request, respond);
      cache.Keys <= r.cache.Keys
      && (r.cache != cache <==>
            request.verb == Get && CacheKey(request) != "" && CacheKey(request) !in cache
            && IsSuccessStatusCode(respond(request).statusCode))
      && (r.cache != cache ==> r.cache == cache[CacheKey(request) := respond(request)])
  {
    var r := Cached(cache, request, respond);
    var key := CacheKey(request);
    if request.verb == Get && key != "" && key !in cache && IsSuccessStatusCode(respond(request).statusCode) {
      assert key in r.cache.Keys;
    }
  }

  /** The inner handler is skipped exactly on a hit, and then the cached response is returned. */
  lemma HitSkipsInner(cache: map<string, Response>, request: Request, respond: Request -> Response)
    ensures var r := Cached(cache, request, respond);
      (r.innerCalls == 0 <==> request.verb == Get && CacheKey(request) != "" && CacheKey(request) in cache)
      && (r.innerCalls == 0 ==> r.response == cache[CacheKey(request)])
      && (r.innerCalls != 0 ==> r.innerCalls == 1 && r.response == respond(request))
  {
  }

  /** Repeating a GET whose first answer was a success is answered from the cache with the same response. */
  lemma RepeatedGetIsServedFromCache(cache: map<string, Response>, request: Request, respond: Request -> Response)
    requires request.verb == Get && CacheKey(request) != ""
    requires IsSuccessStatusCode(Cached(cache, request, respond).response.statusCode)
    ensures var first := Cached(cache, request, respond);
      var second := Cached(first.cache, request, respond);
      second.innerCalls == 0 && second.response == first.response && second.cache == first.cache
  {
  }

  /** The network end of the chain: answers by `respond`, counting its calls. */
  class HttpClientHandler {
    const respond: Request -> Response
    var calls: nat

    constructor(respond: Request -> Response)
      ensures this.respond == respond && calls == 0
    {
      this.respond := respond;
      calls := 0;
    }

    method SendAsync(request: Request) returns (response: Response)
      modifies this`calls
      ensures response == respond(request) && calls == old(calls) + 1
    {
      calls := calls + 1;
      response := respond(request);
    }
  }

  class CachingHandler {
    var cache: map<string, Response>
    const innerHandler: HttpClientHandler

    constructor(innerHandler: HttpClientHandler)
      ensures cache == map[] && this.innerHandler == innerHandler
    {
      cache := map[];
      this.innerHandler := innerHandler;
    }

    method SendAsync(request: Request) returns (response: Response)
      modifies this`cache, innerHandler`calls
      ensures var r := Cached(old(cache), request, innerHandler.respond);
        response == r.response && cache == r.cache && innerHandler.calls == old(innerHandler.calls) + r.innerCalls
    {
      if request.verb != Get {
        response := innerHandler.SendAsync(request);
        return;
      }
      var key := CacheKey(request);
      if key == "" {
        response := innerHandler.SendAsync(request);
        return;
      }
      if key in cache {
        response := cache[key];
        return;
      }
      response := innerHandler.SendAsync(request);
      if IsSuccessStatusCode(response.statusCode) {
        cache := cache[key := response];
      }
    }
  }

  /** The firewall in front of the cache, as in the test's chain (the logging handler is left out). */
  class FirewallMessageHandler {
    const blockedHosts: set<string>
    const innerHandler: CachingHandler

    constructor(blockedHosts: set<string>, innerHandler: CachingHandler)
      ensures this.blockedHosts == blockedHosts && this.innerHandler == innerHandler
    {
      this.blockedHosts := blockedHosts;
      this.innerHandler := innerHandler;
    }

    method SendAsync(request: Request) returns (response: Response)
      modifies innerHandler`cache, innerHandler.innerHandler`calls
      ensures Firewall(blockedHosts, request).Some? ==>
        response == Firewall(blockedHosts, request).value
        && innerHandler.cache == old(innerHandler.cache)
        && innerHandler.innerHandler.calls == old(innerHandler.innerHandler.calls)
      ensures Firewall(blockedHosts, request).None? ==>
        var r := Cached(old(innerHandler.cache), request, innerHandler.innerHandler.respond);
        response == r.response && innerHandler.cache == r.cache
        && innerHandler.innerHandler.calls == old(innerHandler.innerHandler.calls) + r.innerCalls
    {
      var decision := Firewall(blockedHosts, request);
      if decision.Some? {
        return decision.value;
      }
      response := innerHandler.SendAsync(request);
    }
  }

  /** The hosts of the tests. */
  const ExampleHost := "example" + ".com"
  const BlockedHost := "blocked." + ExampleHost

  lemma ToLowerKeepsLowerAppend(a: string, b: string)
    requires ToLower(a) == a && ToLower(b) == b
    ensures ToLower(a + b) == a + b
  {
    ToLowerAppend(a, b);
  }

  /** The test's hosts are already in lower case. */
  lemma TestHostsAreLower()
    ensures ToLower(ExampleHost) == ExampleHost && ToLower(BlockedHost) == BlockedHost
  {
    ExampleHostIsLower();
    BlockedPrefixIsLower();
    ToLowerKeepsLowerAppend("blocked.", ExampleHost);
  }

  lemma ExampleHostIsLower()
    ensures ToLower(ExampleHost) == ExampleHost
  {
    ToLowerKeepsLower("example");
    ToLowerKeepsLower(".com");
    ToLowerKeepsLowerAppend("example", ".com");
  }

  lemma BlockedPrefixIsLower()
    ensures ToLower("blocked.") == "blocked."
  {
    ToLowerKeepsLower("blocked.");
  }

  /** The test site: "https://example.com" answers 200 with its page. */
  function ExampleSite(request: Request): Response {
    if request.requestUri == Some(Uri("https://example.com/", ExampleHost)) then Response(OK, "Example Domain")
    else Response(404, "")
  }

  /**
   * The tests: a request to a blocked host is refused with 403; a GET to
   * example.com is answered 200 and cached, and the repeated GET is answered
   * 200 from the cache without reaching the network again.
   */
  method ChainScenario()
    returns (blocked: Response, first: Response, second: Response, cacheCount: nat, networkCalls: nat)
    ensures blocked.statusCode == Forbidden
    ensures blocked.content == "Access to " + BlockedHost + " is blocked by firewall"
    ensures first == Response(OK, "Example Domain") && second == first
    ensures cacheCount == 1 && networkCalls == 1
  {
    var client := new HttpClientHandler(ExampleSite);
    var caching := new CachingHandler(client);
    var firewall := new FirewallMessageHandler({BlockedHost}, caching);
    var blockedUri := Uri("https://blocked.example.com/api/data", BlockedHost);
    TestHostsAreLower();
    blocked := firewall.SendAsync(Request(Get, Some(blockedUri)));

    var site := Request(Get, Some(Uri("https://example.com/", ExampleHost)));
    first := firewall.SendAsync(site);
    cacheCount := |caching.cache|;
    second := firewall.SendAsync(site);
    networkCalls := client.calls;
  }
}
