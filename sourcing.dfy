/** The flight search of the two API-backed dashboards: route validation, a
    five-minute result cache keyed by `from-to-date`, and the tier chain
    OpenSky, then AviationStack (only with a key), then mock synthesis. Both
    dashboards run the same code over their own airport and airline tables.

    What the network, the clock and `Math.random` deliver is an input
    (`Feeds`): a tier that failed, answered "not ok" or returned no rows is
    `None` or an empty list. */
module Sourcing {
  import opened Wrappers
  import opened Offers
  import opened Sorting
  import opened Synthesis

  /** The two `CONFIG` switches the search reads. */
  datatype Config = Config(aviationStackKey: string, useRealFlightData: bool)

  /** `{ flights, timestamp }`: the cached list is the very array handed out. */
  datatype CacheEntry = CacheEntry(flights: array<Offer>, timestamp: int)

  /** Entries younger than this many milliseconds are served. */
  const CACHE_TTL_MS := 300000

  /** What the outside world contributes to one search. */
  datatype Feeds = Feeds(
    lookupTime: int,                          // `Date.now()` when the cache is consulted
    storeTime: int,                           // `Date.now()` when a tier's result is stored
    tomorrow: string,                         // tomorrow's ISO date, `YYYY-MM-DD`
    distance: nat,                            // `calculateDistance` of the route, whole miles
    openSky: Option<seq<Option<string>>>,     // each state vector's callsign field `s[1]`
    aviation: Option<seq<AvRecord>>,          // AviationStack's `data.data`
    openSkyDraws: nat -> Draws,
    aviationDraws: nat -> Draws,
    mockDraws: nat -> Draws)

  /** Where a search's list comes from. */
  datatype Tier = CacheHit | OpenSkyTier | AviationTier | MockTier

  /** `${fromCity}-${toCity}-${departDate}` */
  function CacheKey(from: string, to: string, date: string): (k: string)
    ensures |k| == |from| + |to| + |date| + 2
    ensures k[|from|] == '-' && k[|from| + |to| + 1] == '-'
    ensures from <= k && k[|from| + |to| + 2..] == date
  {
    from + "-" + to + "-" + date
  }

  /** The first branch of `fetchRealFlightData` that returns. */
  function ChooseTier(cache: map<string, CacheEntry>, key: string, config: Config, feeds: Feeds): (t: Tier)
    ensures t == AviationTier ==> config.aviationStackKey != ""
  {
    if key in cache && feeds.lookupTime - cache[key].timestamp < CACHE_TTL_MS then CacheHit
    else if feeds.openSky.Some? && |feeds.openSky.value| > 0 then OpenSkyTier
    else if config.aviationStackKey != "" && feeds.aviation.Some? && |feeds.aviation.value| > 0 then AviationTier
    else MockTier
  }

  /** The cache after a search served from `tier` returned `r`: only the two
      real-data tiers store their list. */
  function CacheAfter(cache: map<string, CacheEntry>, key: string, tier: Tier, r: array<Offer>, storeTime: int)
    : (c: map<string, CacheEntry>)
    ensures tier == OpenSkyTier || tier == AviationTier ==> key in c && c[key] == CacheEntry(r, storeTime)
    ensures tier == CacheHit || tier == MockTier ==> c == cache
    ensures forall k :: k != key ==> (k in c <==> k in cache)
    ensures forall k :: k != key && k in cache ==> c[k] == cache[k]
  {
    if tier == OpenSkyTier || tier == AviationTier then cache[key := CacheEntry(r, storeTime)] else cache
  }

  // ---------------------------------------------------------------------------
  // Properties of the cache

  /** A list stored by a real-data tier is served again, for the same key,
      exactly while less than 300000 ms have passed since it was stored. */
  lemma CacheReuseWindow(cache: map<string, CacheEntry>, key: string, config: Config,
                         first: Feeds, later: Feeds, r: array<Offer>)
    requires ChooseTier(cache, key, config, first) in {OpenSkyTier, AviationTier}
    ensures var after := CacheAfter(cache, key, ChooseTier(cache, key, config, first), r, first.storeTime);
      ChooseTier(after, key, config, later) == CacheHit <==> later.lookupTime - first.storeTime < CACHE_TTL_MS
  {
  }

  /** At exactly 300000 ms the stored list is no longer served. */
  lemma CacheExpiresAtTtl(cache: map<string, CacheEntry>, key: string, config: Config, feeds: Feeds)
    requires key in cache && feeds.lookupTime == cache[key].timestamp + CACHE_TTL_MS
    ensures ChooseTier(cache, key, config, feeds) != CacheHit
  {
  }

  /** The mock fallback and a cache hit leave the cache as it was, so a later
      search of any key chooses its tier exactly as it would have before. */
  lemma FallbackNotCached(cache: map<string, CacheEntry>, key: string, tier: Tier, r: array<Offer>,
                          storeTime: int, config: Config, key2: string, later: Feeds)
    requires tier in {CacheHit, MockTier}
    ensures ChooseTier(CacheAfter(cache, key, tier, r, storeTime), key2, config, later)
            == ChooseTier(cache, key2, config, later)
  {
  }

  /** Storing under one key never changes what a search of another key does. */
  lemma OtherKeysUnaffected(cache: map<string, CacheEntry>, key: string, tier: Tier, r: array<Offer>,
                            storeTime: int, config: Config, key2: string, later: Feeds)
    requires key2 != key
    ensures ChooseTier(CacheAfter(cache, key, tier, r, storeTime), key2, config, later)
            == ChooseTier(cache, key2, config, later)
  {
  }

  /** Two searches share a cache entry only when they agree on origin,
      destination and date, provided the airport codes contain no `-`. */
  lemma CacheKeyInjective(f1: string, t1: string, d1: string, f2: string, t2: string, d2: string)
    requires '-' !in f1 && '-' !in t1 && '-' !in f2 && '-' !in t2
    requires CacheKey(f1, t1, d1) == CacheKey(f2, t2, d2)
    ensures f1 == f2 && t1 == t2 && d1 == d2
  {
    var k := CacheKey(f1, t1, d1);
    assert k == f1 + ("-" + t1 + "-" + d1);
    assert k == f2 + ("-" + t2 + "-" + d2);
    SplitHeadBeforeSeparator(f1, "-" + t1 + "-" + d1, '-');
    SplitHeadBeforeSeparator(f2, "-" + t2 + "-" + d2, '-');
    assert f1 == f2;
    var rest := k[|f1| + 1..];
    assert rest == t1 + ("-" + d1);
    assert rest == t2 + ("-" + d2);
    SplitHeadBeforeSeparator(t1, "-" + d1, '-');
    SplitHeadBeforeSeparator(t2, "-" + d2, '-');
    assert t1 == t2;
    assert d1 == rest[|t1| + 1..] == d2;
  }

  // ---------------------------------------------------------------------------
  // The search session

  /** The flight-search part of the dashboard's `state` record together with
      the `CONFIG` tables it reads. */
  class Search {
    var fromCity: string
    var toCity: string
    var departDate: string
    var flights: array<Offer>
    var flightCache: map<string, CacheEntry>
    const airports: set<string>
    const airlines: Airlines
    const config: Config

    /** Every cached list holds between one and ten offers: only non-empty
        tier results are stored, and every tier stops at ten. */
    ghost predicate Valid()
      reads this
    {
      forall key :: key in flightCache ==> 0 < flightCache[key].flights.Length <= MAX_OFFERS
    }

    /** `CONFIG.airports[from] && CONFIG.airports[to] && from !== to` */
    predicate RouteKnown()
      reads this
    {
      fromCity in airports && toCity in airports && fromCity != toCity
    }

    function CurrentRoute(): Route
      reads this
    {
      Route(fromCity, toCity, departDate)
    }

    /** What a list served from `tier` holds. */
    ghost predicate Serves(r: array<Offer>, tier: Tier, cache: map<string, CacheEntry>, key: string,
                           route: Route, feeds: Feeds)
      reads r
    {
      match tier
      case CacheHit => key in cache && r == cache[key].flights
      case OpenSkyTier =>
        feeds.openSky.Some?
        && ArrangedByPrice(r[..], OpenSkyOffers(airlines, route, feeds.distance,
                                                Callsigns(feeds.openSky.value), feeds.openSkyDraws))
      case AviationTier =>
        feeds.aviation.Some? && r[..] == AviationOffers(route, feeds.aviation.value, feeds.aviationDraws)
      case MockTier => ArrangedByPrice(r[..], MockOffers(airlines, route, feeds.distance, feeds.mockDraws))
    }

    constructor(airports: set<string>, airlines: Airlines, config: Config, fromCity: string, toCity: string)
      ensures this.airports == airports && this.airlines == airlines && this.config == config
      ensures this.fromCity == fromCity && this.toCity == toCity && departDate == ""
      ensures flights.Length == 0 && flightCache == map[]
      ensures Valid()
    {
      this.airports := airports;
      this.airlines := airlines;
      this.config := config;
      this.fromCity := fromCity;
      this.toCity := toCity;
      departDate := "";
      flights := new Offer[0];
      flightCache := map[];
    }

    /** `fetchRealFlightData`: the cache, then each tier in turn. Only the
        cache changes; a cache hit hands out the cached array itself. */
    method FetchRealFlightData(feeds: Feeds) returns (r: array<Offer>)
      requires Valid()
      modifies this
      ensures Valid()
      ensures fromCity == old(fromCity) && toCity == old(toCity) && departDate == old(departDate)
      ensures flights == old(flights)
      ensures var key := CacheKey(fromCity, toCity, departDate);
        var tier := ChooseTier(old(flightCache), key, config, feeds);
        && Serves(r, tier, old(flightCache), key, CurrentRoute(), feeds)
        && flightCache == CacheAfter(old(flightCache), key, tier, r, feeds.storeTime)
        && (tier != CacheHit ==> fresh(r))
      ensures 0 < r.Length <= MAX_OFFERS
    {
      var key := CacheKey(fromCity, toCity, departDate);
      var route := Route(fromCity, toCity, departDate);
      if key in flightCache {
        var cached := flightCache[key];
        if feeds.lookupTime - cached.timestamp < CACHE_TTL_MS {
          return cached.flights;
        }
      }
      if feeds.openSky.Some? && |feeds.openSky.value| > 0 {
        r := CreateFlightsFromData(airlines, route, feeds.distance, Callsigns(feeds.openSky.value),
                                   feeds.openSkyDraws);
        flightCache := flightCache[key := CacheEntry(r, feeds.storeTime)];
        return;
      }
      if config.aviationStackKey != "" && feeds.aviation.Some? && |feeds.aviation.value| > 0 {
        var offers := AviationOffers(route, feeds.aviation.value, feeds.aviationDraws);
        r := new Offer[|offers|](i requires 0 <= i < |offers| => offers[i]);
        flightCache := flightCache[key := CacheEntry(r, feeds.storeTime)];
        return;
      }
      r := GenerateMockFlights(airlines, route, feeds.distance, feeds.mockDraws);
    }

    /** `generateFlights`: an unknown or repeated airport empties the list and
        does nothing else; otherwise the date defaults to tomorrow and the list
        comes from the tier chain (or straight from mock synthesis when real
        data is switched off). */
    method GenerateFlights(feeds: Feeds)
      requires Valid()
      modifies this
      ensures Valid()
      ensures fromCity == old(fromCity) && toCity == old(toCity)
      ensures !RouteKnown() ==>
        && fresh(flights) && flights.Length == 0
        && departDate == old(departDate) && flightCache == old(flightCache)
      ensures RouteKnown() ==>
        && departDate == (if old(departDate) == "" then feeds.tomorrow else old(departDate))
        && 0 < flights.Length <= MAX_OFFERS
      ensures RouteKnown() && config.useRealFlightData ==>
        var key := CacheKey(fromCity, toCity, departDate);
        var tier := ChooseTier(old(flightCache), key, config, feeds);
        && Serves(flights, tier, old(flightCache), key, CurrentRoute(), feeds)
        && flightCache == CacheAfter(old(flightCache), key, tier, flights, feeds.storeTime)
        && (tier != CacheHit ==> fresh(flights))
      ensures RouteKnown() && !config.useRealFlightData ==>
        && fresh(flights) && flightCache == old(flightCache)
        && ArrangedByPrice(flights[..], MockOffers(airlines, CurrentRoute(), feeds.distance, feeds.mockDraws))
    {
      if !(fromCity in airports && toCity in airports && fromCity != toCity) {
        flights := new Offer[0];
        return;
      }
      if departDate == "" {
        departDate := feeds.tomorrow;
      }
      if config.useRealFlightData {
        flights := FetchRealFlightData(feeds);
      } else {
        flights := GenerateMockFlights(airlines, Route(fromCity, toCity, departDate), feeds.distance,
                                       feeds.mockDraws);
      }
    }
  }
}
