/** The offer lists the dashboards build: ten mock offers with cyclic airlines,
    up to ten offers labelled with callsigns from the OpenSky feed, up to ten
    offers mapped from AviationStack records, and the first dashboard's ten
    offers with a randomly drawn airline. Each list is first given as a
    function of its inputs (the order the loop pushes offers in); the methods
    fill an array in that order and then sort it by price in place. */
module Synthesis {
  import opened Wrappers
  import opened JsText
  import opened Offers
  import opened Sorting

  /** An airline table: never empty, and every name has the two letters the
      flight-number prefix takes. All three dashboards' tables qualify. */
  type Airlines = s: seq<string> | |s| > 0 && forall i :: 0 <= i < |s| ==> |s[i]| >= 2
    witness ["United"]

  /** `Math.random() > 0.6 ? 0 : 1` in the mock generators. */
  const MOCK_STOP_THRESHOLD: real := 0.6
  /** `Math.random() > 0.7 ? 0 : 1` when labelling OpenSky callsigns. */
  const OPEN_SKY_STOP_THRESHOLD: real := 0.7

  const MAX_CALLSIGNS := 15
  const MAX_OFFERS := 10

  /** The list `[offer(0), ..., offer(n - 1)]`. */
  function Tabulate(n: nat, offer: nat -> Offer): (r: seq<Offer>)
    ensures |r| == n && forall i :: 0 <= i < n ==> r[i] == offer(i)
  {
    seq(n, i requires 0 <= i => offer(i))
  }

  /** The generators' `for (let i = 0; i < n; i++) flights.push(offer(i))` loop. */
  method PushOffers(n: nat, offer: nat -> Offer) returns (a: array<Offer>)
    ensures fresh(a) && a[..] == Tabulate(n, offer)
  {
    a := new Offer[n];
    for i := 0 to n
      invariant forall k :: 0 <= k < i ==> a[k] == offer(k)
    {
      a[i] := offer(i);
    }
  }

  // ---------------------------------------------------------------------------
  // Mock offers (`generateMockFlights`)

  function MockOffer(airlines: Airlines, route: Route, base: int, draws: nat -> Draws, i: nat): Offer
  {
    var airline := airlines[i % |airlines|];
    Synthesize(airline, FlightNumber(airline, i), route, i, base, draws(i), MOCK_STOP_THRESHOLD, MOCK)
  }

  function MockMaker(airlines: Airlines, route: Route, base: int, draws: nat -> Draws): nat -> Offer
  {
    (i: nat) => MockOffer(airlines, route, base, draws, i)
  }

  function MockOffers(airlines: Airlines, route: Route, distance: nat, draws: nat -> Draws): (r: seq<Offer>)
    ensures |r| == MAX_OFFERS
  {
    Tabulate(MAX_OFFERS, MockMaker(airlines, route, BaseFlightTime(distance), draws))
  }

  /** Mock offer i has airline `i % |airlines|`, the generated flight number, the
      mock tag, a stop count of 0 or 1, departure hour `floor(6 + 1.5 i)` and
      the perturbed flight time as its duration. */
  lemma MockOfferShape(airlines: Airlines, route: Route, distance: nat, draws: nat -> Draws, i: nat)
    requires i < MAX_OFFERS
    ensures var o := MockOffers(airlines, route, distance, draws)[i];
      && o.airline == airlines[i % |airlines|]
      && o.flightNumber == FlightNumber(airlines[i % |airlines|], i)
      && o.provenance == MOCK && o.stops <= 1
      && o.from == route.from && o.to == route.to && o.date == route.date
      && ParseInt(o.departTime) == Some(DepartHour(i) as int)
      && DurationHours(o) == FlightTime(BaseFlightTime(distance), draws(i))
  {
    var airline := airlines[i % |airlines|];
    DepartureHourParses(airline, FlightNumber(airline, i), route, i, BaseFlightTime(distance), draws(i),
                        MOCK_STOP_THRESHOLD, MOCK);
    SynthesizedDuration(airline, FlightNumber(airline, i), route, i, BaseFlightTime(distance), draws(i),
                        MOCK_STOP_THRESHOLD, MOCK);
  }

  /** Distinct indices give distinct flight numbers and distinct departure times. */
  lemma MockOffersDistinct(airlines: Airlines, route: Route, distance: nat, draws: nat -> Draws)
    ensures DistinctBy(MockOffers(airlines, route, distance, draws), FlightNumberOf)
    ensures DistinctBy(MockOffers(airlines, route, distance, draws), DepartTimeOf)
  {
    var r := MockOffers(airlines, route, distance, draws);
    forall p, q | 0 <= p < q < |r|
      ensures r[p].flightNumber != r[q].flightNumber && r[p].departTime != r[q].departTime
    {
      var a, b := airlines[p % |airlines|], airlines[q % |airlines|];
      if r[p].flightNumber == r[q].flightNumber {
        FlightNumberInjective(a, b, p, q);
      }
      MockOfferShape(airlines, route, distance, draws, p);
      MockOfferShape(airlines, route, distance, draws, q);
      DepartHourIncreasing(p, q);
    }
  }

  /** What every mock list holds, whatever the draws: mock-tagged offers with
      at most one stop, pairwise distinct flight numbers and departure times. */
  lemma MockOffersFacts(airlines: Airlines, route: Route, distance: nat, draws: nat -> Draws)
    ensures var r := MockOffers(airlines, route, distance, draws);
      && (forall o :: o in r ==> o.provenance == MOCK && o.stops <= 1)
      && DistinctBy(r, FlightNumberOf) && DistinctBy(r, DepartTimeOf)
  {
    var r := MockOffers(airlines, route, distance, draws);
    forall i | 0 <= i < MAX_OFFERS ensures r[i].provenance == MOCK && r[i].stops <= 1 {
      MockOfferShape(airlines, route, distance, draws, i);
    }
    MockOffersDistinct(airlines, route, distance, draws);
  }

  /** A re-ordering of the mock list keeps what `MockOffersFacts` states. */
  lemma ArrangedMockFacts(s: seq<Offer>, airlines: Airlines, route: Route, distance: nat, draws: nat -> Draws)
    requires multiset(s) == multiset(MockOffers(airlines, route, distance, draws))
    ensures forall o :: o in s ==> o.provenance == MOCK && o.stops <= 1
    ensures DistinctBy(s, FlightNumberOf) && DistinctBy(s, DepartTimeOf)
  {
    var spec := MockOffers(airlines, route, distance, draws);
    MockOffersFacts(airlines, route, distance, draws);
    PermutationKeepsDistinct(spec, s, FlightNumberOf);
    PermutationKeepsDistinct(spec, s, DepartTimeOf);
    forall o | o in s ensures o.provenance == MOCK && o.stops <= 1 {
      assert o in multiset(spec);
    }
  }

  /** `generateMockFlights`: the ten offers, sorted by price. */
  method GenerateMockFlights(airlines: Airlines, route: Route, distance: nat, draws: nat -> Draws)
    returns (a: array<Offer>)
    ensures fresh(a) && a.Length == MAX_OFFERS
    ensures ArrangedByPrice(a[..], MockOffers(airlines, route, distance, draws))
    ensures forall o :: o in a[..] ==> o.provenance == MOCK && o.stops <= 1
    ensures DistinctBy(a[..], FlightNumberOf) && DistinctBy(a[..], DepartTimeOf)
  {
    var base := BaseFlightTime(distance);
    a := PushOffers(MAX_OFFERS, MockMaker(airlines, route, base, draws));
    SortOffers(a, ByPrice);
    ArrangedMockFacts(a[..], airlines, route, distance, draws);
  }

  // ---------------------------------------------------------------------------
  // OpenSky callsigns (`fetchOpenSkyData`) and `createFlightsFromData`

  /** Non-empty, with no white space at either end. */
  predicate IsCallsign(c: string)
  {
    c != [] && !IsSpace(c[0]) && !IsSpace(c[|c| - 1])
  }

  /** A callsign is its own `trim()`. */
  lemma CallsignIsTrimmed(c: string)
    requires IsCallsign(c)
    ensures Trim(c) == c
  {
    TrimStartOfNonSpace(c);
  }

  /** A non-empty `trim()` result is a callsign. */
  lemma TrimmedIsCallsign(c: string)
    requires Trim(c) != ""
    ensures IsCallsign(Trim(c))
  {
    TrimIdempotent(c);
  }

  lemma PrependCallsign(t: string, rest: seq<string>)
    requires IsCallsign(t)
    requires forall k :: 0 <= k < |rest| ==> IsCallsign(rest[k])
    ensures forall k :: 0 <= k < |[t] + rest| ==> IsCallsign(([t] + rest)[k])
  {
  }

  /** The trimmed, non-empty callsigns of the feed, in feed order:
      `filter(s => s[1] && s[1].trim())` followed by `map(s => s[1].trim())`. */
  function UsableCallsigns(states: seq<Option<string>>): (r: seq<string>)
    ensures |r| <= |states|
    ensures forall k :: 0 <= k < |r| ==> IsCallsign(r[k])
  {
    if states == [] then []
    else
      var rest := UsableCallsigns(states[1..]);
      match states[0]
      case Some(c) =>
        if c != "" && Trim(c) != "" then
          var t := Trim(c);
          TrimmedIsCallsign(c);
          PrependCallsign(t, rest);
          [t] + rest
        else rest
      case None => rest
  }

  /** `.filter(...).slice(0, 15).map(...)`; mapping after or before the slice is the same. */
  function Callsigns(states: seq<Option<string>>): (r: seq<string>)
    ensures |r| <= MAX_CALLSIGNS
    ensures forall k :: 0 <= k < |r| ==> IsCallsign(r[k])
    ensures r <= UsableCallsigns(states)
    ensures |r| == Min(MAX_CALLSIGNS, |UsableCallsigns(states)|)
  {
    var usable := UsableCallsigns(states);
    usable[..Min(MAX_CALLSIGNS, |usable|)]
  }

  lemma {:induction false} UsableCallsignsAppend(a: seq<Option<string>>, b: seq<Option<string>>)
    ensures UsableCallsigns(a + b) == UsableCallsigns(a) + UsableCallsigns(b)
  {
    if a == [] {
      assert a + b == b;
    } else {
      var ab := a + b;
      assert ab[0] == a[0];
      assert ab[1..] == a[1..] + b;
      UsableCallsignsAppend(a[1..], b);
      assert UsableCallsigns(ab[1..]) == UsableCallsigns(a[1..]) + UsableCallsigns(b);
    }
  }

  /** One feed state: kept, trimmed, exactly when it has a callsign whose trim is non-empty. */
  lemma UsableCallsignsOne(x: Option<string>)
    ensures UsableCallsigns([x]) == if x.Some? && Trim(x.value) != "" then [Trim(x.value)] else []
  {
    assert [x][1..] == [];
  }

  /** Callsigns keep feed order: more states at the end of the feed can only
      add callsigns after the ones already taken. */
  lemma CallsignsKeepFeedOrder(a: seq<Option<string>>, b: seq<Option<string>>)
    ensures Callsigns(a) <= Callsigns(a + b)
  {
    UsableCallsignsAppend(a, b);
  }

  /** `Math.min(10, realCallsigns.length || 10)` */
  function OpenSkyCount(callsigns: seq<string>): (n: nat)
    ensures |callsigns| == 0 ==> n == MAX_OFFERS
    ensures |callsigns| > 0 ==> n == Min(MAX_OFFERS, |callsigns|)
  {
    Min(MAX_OFFERS, if |callsigns| == 0 then MAX_OFFERS else |callsigns|)
  }

  function OpenSkyOffer(airlines: Airlines, route: Route, base: int, callsigns: seq<string>,
                        draws: nat -> Draws, i: nat): Offer
  {
    var airline := airlines[i % |airlines|];
    var callsign := if i < |callsigns| && callsigns[i] != "" then callsigns[i] else FlightNumber(airline, i);
    Synthesize(airline, callsign, route, i, base, draws(i), OPEN_SKY_STOP_THRESHOLD, OPEN_SKY)
  }

  function OpenSkyMaker(airlines: Airlines, route: Route, base: int, callsigns: seq<string>,
                        draws: nat -> Draws): nat -> Offer
  {
    (i: nat) => OpenSkyOffer(airlines, route, base, callsigns, draws, i)
  }

  function OpenSkyOffers(airlines: Airlines, route: Route, distance: nat, callsigns: seq<string>,
                         draws: nat -> Draws): (r: seq<Offer>)
    ensures |r| == OpenSkyCount(callsigns)
  {
    Tabulate(OpenSkyCount(callsigns), OpenSkyMaker(airlines, route, BaseFlightTime(distance), callsigns, draws))
  }

  /** With callsigns, offer i is labelled with callsign i; without any, all ten
      offers carry generated flight numbers. Every offer is tagged as real
      OpenSky data. */
  lemma OpenSkyOfferLabels(airlines: Airlines, route: Route, distance: nat, callsigns: seq<string>,
                           draws: nat -> Draws, i: nat)
    requires forall k :: 0 <= k < |callsigns| ==> callsigns[k] != ""
    requires i < OpenSkyCount(callsigns)
    ensures var o := OpenSkyOffers(airlines, route, distance, callsigns, draws)[i];
      && o.provenance == OPEN_SKY && o.stops <= 1
      && o.flightNumber == (if |callsigns| > 0 then callsigns[i] else FlightNumber(airlines[i % |airlines|], i))
      && DurationHours(o) == FlightTime(BaseFlightTime(distance), draws(i))
  {
    var base := BaseFlightTime(distance);
    var airline := airlines[i % |airlines|];
    var callsign := if i < |callsigns| && callsigns[i] != "" then callsigns[i] else FlightNumber(airline, i);
    var o := Synthesize(airline, callsign, route, i, base, draws(i), OPEN_SKY_STOP_THRESHOLD, OPEN_SKY);
    assert OpenSkyOffers(airlines, route, distance, callsigns, draws)[i] == o;
    SynthesizedDuration(airline, callsign, route, i, base, draws(i), OPEN_SKY_STOP_THRESHOLD, OPEN_SKY);
  }

  /** `createFlightsFromData`: the offers pushed in index order, then sorted by price. */
  method CreateFlightsFromData(airlines: Airlines, route: Route, distance: nat, callsigns: seq<string>,
                               draws: nat -> Draws)
    returns (a: array<Offer>)
    ensures fresh(a) && a.Length == OpenSkyCount(callsigns) && a.Length > 0
    ensures ArrangedByPrice(a[..], OpenSkyOffers(airlines, route, distance, callsigns, draws))
  {
    var base := BaseFlightTime(distance);
    var n := Min(MAX_OFFERS, if |callsigns| == 0 then MAX_OFFERS else |callsigns|);
    a := PushOffers(n, OpenSkyMaker(airlines, route, base, callsigns, draws));
    SortOffers(a, ByPrice);
  }

  // ---------------------------------------------------------------------------
  // AviationStack records (`fetchAviationStackData`)

  /** The fields of one AviationStack record the mapping reads. Scheduled times
      are already parsed to milliseconds; the clock strings are what
      `toLocaleTimeString` printed for them. An absent IATA code is "". */
  datatype AvRecord = AvRecord(
    airlineName: string,
    flightIata: string,
    flightNumber: string,
    departMs: int,
    arriveMs: int,
    departClock: string,
    arriveClock: string)

  const MS_PER_HOUR := 3600000

  /** `Math.floor((arriveTime - departTime) / 3600000)` */
  function ScheduledHours(r: AvRecord): (h: int)
    ensures h * MS_PER_HOUR <= r.arriveMs - r.departMs < (h + 1) * MS_PER_HOUR
  {
    (r.arriveMs - r.departMs) / MS_PER_HOUR
  }

  function AviationOffer(route: Route, r: AvRecord, d: Draws): Offer
  {
    Offer(r.airlineName,
          if r.flightIata != "" then r.flightIata else r.flightNumber,
          route.from, route.to, r.departClock, r.arriveClock,
          DurationString(ScheduledHours(r), RandomMinute(d.durationMinute)),
          0, d.price, route.date, AVIATION_STACK)
  }

  /** `data.data.slice(0, 10).map(...)` */
  function AviationOffers(route: Route, records: seq<AvRecord>, draws: nat -> Draws): (r: seq<Offer>)
    ensures |r| == Min(MAX_OFFERS, |records|)
  {
    seq(Min(MAX_OFFERS, |records|), i requires 0 <= i < |records| => AviationOffer(route, records[i], draws(i)))
  }

  /** Each mapped offer is non-stop, tagged as real AviationStack data, keeps the
      record's airline, and its duration sorts by the whole hours between the
      scheduled departure and arrival. */
  lemma AviationOfferShape(route: Route, records: seq<AvRecord>, draws: nat -> Draws, i: nat)
    requires i < Min(MAX_OFFERS, |records|)
    ensures var o := AviationOffers(route, records, draws)[i];
      && o.stops == 0 && o.provenance == AVIATION_STACK
      && o.airline == records[i].airlineName
      && DurationHours(o) * MS_PER_HOUR <= records[i].arriveMs - records[i].departMs
      && records[i].arriveMs - records[i].departMs < (DurationHours(o) + 1) * MS_PER_HOUR
  {
    var o := AviationOffers(route, records, draws)[i];
    DurationRecoversFlightTime(ScheduledHours(records[i]), RandomMinute(draws(i).durationMinute), o);
  }

  // ---------------------------------------------------------------------------
  // The first dashboard's generator (airline drawn at random, no source tag)

  /** `CONFIG.airlines[Math.floor(Math.random() * CONFIG.airlines.length)]` */
  function RandomAirline(airlines: Airlines, u: Unit): (a: string)
    ensures a in airlines
  {
    ScaledDrawBelow(u, |airlines|);
    airlines[(u * |airlines| as real).Floor]
  }

  /** `Math.floor(Math.random() * n)` is an index below `n`. */
  lemma ScaledDrawBelow(u: Unit, n: nat)
    requires n > 0
    ensures 0 <= (u * n as real).Floor < n
  {
    var m := n as real;
    var d := 1.0 - u;
    assert d * m >= d by {
      assert d * (m - 1.0) >= 0.0;
    }
    assert u * m + d * m == m;
    assert u * m >= 0.0;
  }

  function RandomAirlineOffer(airlines: Airlines, route: Route, base: int, draws: nat -> Draws, i: nat): Offer
  {
    var airline := RandomAirline(airlines, draws(i).airline);
    Synthesize(airline, FlightNumber(airline, i), route, i, base, draws(i), MOCK_STOP_THRESHOLD, Untagged)
  }

  function RandomAirlineMaker(airlines: Airlines, route: Route, base: int, draws: nat -> Draws): nat -> Offer
  {
    (i: nat) => RandomAirlineOffer(airlines, route, base, draws, i)
  }

  function RandomAirlineOffers(airlines: Airlines, route: Route, distance: nat, draws: nat -> Draws): (r: seq<Offer>)
    ensures |r| == MAX_OFFERS
  {
    Tabulate(MAX_OFFERS, RandomAirlineMaker(airlines, route, BaseFlightTime(distance), draws))
  }

  /** Even with the airline drawn at random, the `1000 + i` suffix keeps flight
      numbers distinct, and the departure slots keep departure times distinct. */
  lemma RandomAirlineOffersDistinct(airlines: Airlines, route: Route, distance: nat, draws: nat -> Draws)
    ensures DistinctBy(RandomAirlineOffers(airlines, route, distance, draws), FlightNumberOf)
    ensures DistinctBy(RandomAirlineOffers(airlines, route, distance, draws), DepartTimeOf)
    ensures forall o :: o in RandomAirlineOffers(airlines, route, distance, draws) ==>
              o.stops <= 1 && o.provenance == Untagged && o.airline in airlines
  {
    var r := RandomAirlineOffers(airlines, route, distance, draws);
    var base := BaseFlightTime(distance);
    forall p, q | 0 <= p < q < |r|
      ensures r[p].flightNumber != r[q].flightNumber && r[p].departTime != r[q].departTime
    {
      var a, b := RandomAirline(airlines, draws(p).airline), RandomAirline(airlines, draws(q).airline);
      if r[p].flightNumber == r[q].flightNumber {
        FlightNumberInjective(a, b, p, q);
      }
      DepartureHourParses(a, FlightNumber(a, p), route, p, base, draws(p), MOCK_STOP_THRESHOLD, Untagged);
      DepartureHourParses(b, FlightNumber(b, q), route, q, base, draws(q), MOCK_STOP_THRESHOLD, Untagged);
      DepartHourIncreasing(p, q);
    }
  }

  /** A re-ordering of the first dashboard's list keeps what
      `RandomAirlineOffersDistinct` states. */
  lemma ArrangedRandomAirlineFacts(s: seq<Offer>, airlines: Airlines, route: Route, distance: nat,
                                   draws: nat -> Draws)
    requires multiset(s) == multiset(RandomAirlineOffers(airlines, route, distance, draws))
    ensures forall o :: o in s ==> o.stops <= 1 && o.provenance == Untagged && o.airline in airlines
    ensures DistinctBy(s, FlightNumberOf) && DistinctBy(s, DepartTimeOf)
  {
    var spec := RandomAirlineOffers(airlines, route, distance, draws);
    RandomAirlineOffersDistinct(airlines, route, distance, draws);
    PermutationKeepsDistinct(spec, s, FlightNumberOf);
    PermutationKeepsDistinct(spec, s, DepartTimeOf);
    forall o | o in s ensures o.stops <= 1 && o.provenance == Untagged && o.airline in airlines {
      assert o in multiset(spec);
    }
  }

  /** The first dashboard's list: ten offers with randomly drawn airlines,
      cheapest first. */
  method GenerateRandomAirlineFlights(airlines: Airlines, route: Route, distance: nat, draws: nat -> Draws)
    returns (a: array<Offer>)
    ensures fresh(a) && a.Length == MAX_OFFERS
    ensures ArrangedByPrice(a[..], RandomAirlineOffers(airlines, route, distance, draws))
    ensures forall o :: o in a[..] ==> o.stops <= 1 && o.airline in airlines
    ensures DistinctBy(a[..], FlightNumberOf) && DistinctBy(a[..], DepartTimeOf)
  {
    var base := BaseFlightTime(distance);
    a := PushOffers(MAX_OFFERS, RandomAirlineMaker(airlines, route, base, draws));
    SortOffers(a, ByPrice);
    ArrangedRandomAirlineFacts(a[..], airlines, route, distance, draws);
  }
}
