/**
 * The zone resolver (getZoneInfo in client.go) as a step on the cache:
 * look the name up exactly as given; on a miss, query the provider for the
 * name with its trailing dots removed, demand exactly one zone back, and
 * store it under the trimmed name.
 */
module Zones {
  import opened Wrappers
  import opened Http
  import opened Dns
  import opened Names

  /** What one resolution returns, with the cache it leaves behind. */
  datatype Resolution = Resolution(zone: Zone, err: Option<Error>, cache: map<string, Zone>)

  /** /dns_zones?name={trimmed name}. */
  function ZoneUrl(zoneName: string): Url
  {
    Url(BASE_URL + "/dns_zones", map["name" := TrimRightDots(zoneName)])
  }

  /** The miss path before the round trip: build the GET, which fails only if the URL does not parse. */
  function ZonePlan(zoneName: string, lib: Library): (p: Plan)
    ensures p.Send? <==> lib.parseUrl(ZoneUrl(zoneName)).None?
    ensures p.Abort? ==> p.error == RequestError(lib.parseUrl(ZoneUrl(zoneName)).value)
    ensures p.Send? ==> p.request == Request(Get, ZoneUrl(zoneName), map[], None)
  {
    match NewRequest(Get, ZoneUrl(zoneName), None, lib.parseUrl)
    case Failure(e) => Abort(e)
    case Success(req) => Send(req)
  }

  /**
   * The request a resolution sends: none when the name, exactly as given,
   * is cached; otherwise an authorized GET whose only filter is the name
   * with all its trailing dots removed.
   */
  function ZoneSent(cache: map<string, Zone>, zoneName: string, token: string, lib: Library): (o: Option<Request>)
    ensures o.Some? <==> zoneName !in cache && lib.parseUrl(ZoneUrl(zoneName)).None?
    ensures o.Some? ==> && o.value.verb == Get
                        && o.value.url.path == BASE_URL + "/dns_zones"
                        && o.value.url.query == map["name" := TrimRightDots(zoneName)]
                        && o.value.header == map[AUTHORIZATION := "Bearer " + token]
                        && o.value.body == None
  {
    if zoneName in cache then None else Sent(ZonePlan(zoneName, lib), token)
  }

  /** The round trip of the zone query, settled and decoded as a zone list (or the error that stopped it). */
  function Found(answer: Option<Reply>, lib: Library): Result<seq<Zone>, Error>
    requires answer.Some?
  {
    Settle(answer.value, lib.decodeZones)
  }

  /**
   * One call of getZoneInfo: `answer` is the server's reply when a request
   * went out, and nothing otherwise.
   */
  function Resolve(cache: map<string, Zone>, zoneName: string, lib: Library, answer: Option<Reply>): (r: Resolution)
    requires answer.Some? <==> zoneName !in cache && ZonePlan(zoneName, lib).Send?
    ensures zoneName in cache ==> r == Resolution(cache[zoneName], None, cache)
    ensures r.err.Some? ==> r.zone == ZERO_ZONE && r.cache == cache
    ensures zoneName !in cache && ZonePlan(zoneName, lib).Abort? ==> r.err == Some(ZonePlan(zoneName, lib).error)
    ensures answer.Some? && Found(answer, lib).Failure? ==> r.err == Some(Found(answer, lib).error)
    ensures answer.Some? && Found(answer, lib).Success? && |Found(answer, lib).value| != 1 ==>
              r.err == Some(ZoneCountError(|Found(answer, lib).value|, TrimRightDots(zoneName)))
    ensures r.err.None? <==> zoneName in cache || (answer.Some? && Found(answer, lib).Success? && |Found(answer, lib).value| == 1)
    ensures r.err.None? && zoneName !in cache ==>
              Found(answer, lib).value == [r.zone] && r.cache == cache[TrimRightDots(zoneName) := r.zone]
  {
    if zoneName in cache then Resolution(cache[zoneName], None, cache)
    else match ZonePlan(zoneName, lib)
      case Abort(e) => Resolution(ZERO_ZONE, Some(e), cache)
      case Send(_) =>
        match Found(answer, lib)
        case Failure(e) => Resolution(ZERO_ZONE, Some(e), cache)
        case Success(zones) =>
          if |zones| != 1 then Resolution(ZERO_ZONE, Some(ZoneCountError(|zones|, TrimRightDots(zoneName))), cache)
          else Resolution(zones[0], None, cache[TrimRightDots(zoneName) := zones[0]])
  }

  /** Every key is a trimmed name: what getZoneInfo writes never ends in a dot. */
  predicate TrimmedKeys(cache: map<string, Zone>)
  {
    forall k :: k in cache ==> !EndsWithDot(k)
  }

  /** A resolution keeps the cache's keys trimmed; it adds at most the trimmed name. */
  lemma ResolveKeepsKeysTrimmed(cache: map<string, Zone>, zoneName: string, lib: Library, answer: Option<Reply>)
    requires answer.Some? <==> zoneName !in cache && ZonePlan(zoneName, lib).Send?
    requires TrimmedKeys(cache)
    ensures TrimmedKeys(Resolve(cache, zoneName, lib, answer).cache)
    ensures Resolve(cache, zoneName, lib, answer).cache.Keys <= cache.Keys + {TrimRightDots(zoneName)}
  {
  }

  /**
   * The cache is read with the name as given but written with the trimmed
   * name, so in a cache of trimmed keys a name ending in '.' is never a hit:
   * each resolution of it sends a request (unless the URL does not parse).
   */
  lemma DottedNameAlwaysSends(cache: map<string, Zone>, zoneName: string, token: string, lib: Library)
    requires TrimmedKeys(cache) && EndsWithDot(zoneName)
    ensures ZoneSent(cache, zoneName, token, lib) == Sent(ZonePlan(zoneName, lib), token)
    ensures ZoneSent(cache, zoneName, token, lib).Some? <==> lib.parseUrl(ZoneUrl(zoneName)).None?
  {
  }

  /**
   * After a successful miss, resolving the same name again is a hit (and
   * sends nothing) exactly when the name has no trailing dot; with one, the
   * same request goes out again. Either way the trimmed name now hits and
   * gives the zone just stored.
   */
  lemma ResolveAgain(cache: map<string, Zone>, zoneName: string, token: string, lib: Library, answer: Option<Reply>)
    requires answer.Some? <==> zoneName !in cache && ZonePlan(zoneName, lib).Send?
    requires TrimmedKeys(cache) && zoneName !in cache
    requires Resolve(cache, zoneName, lib, answer).err.None?
    ensures var first := Resolve(cache, zoneName, lib, answer);
            && (ZoneSent(first.cache, zoneName, token, lib).None? <==> !EndsWithDot(zoneName))
            && (EndsWithDot(zoneName) ==> ZoneSent(first.cache, zoneName, token, lib) == ZoneSent(cache, zoneName, token, lib))
            && (!EndsWithDot(zoneName) ==> Resolve(first.cache, zoneName, lib, None) == Resolution(first.zone, None, first.cache))
            && Resolve(first.cache, TrimRightDots(zoneName), lib, None) == Resolution(first.zone, None, first.cache)
  {
  }

  /** A failed resolution leaves the cache as it was, so the next call with the name misses again. */
  lemma FailureCachesNothing(cache: map<string, Zone>, zoneName: string, token: string, lib: Library, answer: Option<Reply>)
    requires answer.Some? <==> zoneName !in cache && ZonePlan(zoneName, lib).Send?
    requires Resolve(cache, zoneName, lib, answer).err.Some?
    ensures Resolve(cache, zoneName, lib, answer).cache == cache
    ensures ZoneSent(Resolve(cache, zoneName, lib, answer).cache, zoneName, token, lib) == ZoneSent(cache, zoneName, token, lib)
  {
  }
}
