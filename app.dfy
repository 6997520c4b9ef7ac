/** The first dashboard: three airports, five airlines drawn at random for each
    offer, no data feeds and no cache, the base-joint gesture classifier. */
module App {
  import opened Wrappers
  import opened Offers
  import opened Sorting
  import opened Synthesis
  import opened Debounce
  import opened McpGestures

  const AIRPORTS: set<string> := {"JFK", "LAX", "ORD"}
  const AIRLINES: Airlines := ["AIRFRANCE", "United", "Delta", "American", "Southwest"]

  const HOME_FROM := "JFK"
  const HOME_TO := "LAX"


  /** The dashboard's `state` record and the results list's scroll offset. */
  class Dashboard {
    var fromCity: string
    var toCity: string
    var departDate: string
    var flights: array<Offer>
    var lastGesture: Option<Gesture>
    var lastGestureTime: int
    var scrollTop: int

    /** The initial `state`: route JFK to LAX, no date, no flights, no gesture yet. */
    constructor()
      ensures fromCity == HOME_FROM && toCity == HOME_TO && departDate == ""
      ensures flights.Length == 0
      ensures lastGesture == None && lastGestureTime == 0 && scrollTop == 0
    {
      fromCity := HOME_FROM;
      toCity := HOME_TO;
      departDate := "";
      flights := new Offer[0];
      lastGesture := None;
      lastGestureTime := 0;
      scrollTop := 0;
    }

    predicate RouteKnown()
      reads this
    {
      fromCity in AIRPORTS && toCity in AIRPORTS && fromCity != toCity
    }

    function Record(): Tracker<Gesture>
      reads this
    {
      Tracker(lastGesture, lastGestureTime)
    }

    /** `generateFlights`: an unknown or repeated airport empties the list;
        otherwise the date defaults to tomorrow (only when empty) and the list
        becomes ten offers, cheapest first, with distinct flight numbers and
        distinct departure times although each airline is drawn at random. */
    method GenerateFlights(tomorrow: string, distance: nat, draws: nat -> Draws)
      modifies this
      ensures fromCity == old(fromCity) && toCity == old(toCity)
      ensures lastGesture == old(lastGesture) && lastGestureTime == old(lastGestureTime)
      ensures scrollTop == old(scrollTop)
      ensures fresh(flights)
      ensures !RouteKnown() ==> flights.Length == 0 && departDate == old(departDate)
      ensures RouteKnown() ==>
        && departDate == (if old(departDate) == "" then tomorrow else old(departDate))
        && flights.Length == MAX_OFFERS
        && ArrangedByPrice(flights[..],
                           RandomAirlineOffers(AIRLINES, Route(fromCity, toCity, departDate), distance, draws))
        && DistinctBy(flights[..], FlightNumberOf) && DistinctBy(flights[..], DepartTimeOf)
        && (forall o :: o in flights[..] ==> o.stops <= 1 && o.airline in AIRLINES)
    {
      if !(fromCity in AIRPORTS && toCity in AIRPORTS && fromCity != toCity) {
        flights := new Offer[0];
        return;
      }
      if departDate == "" {
        departDate := tomorrow;
      }
      flights := GenerateRandomAirlineFlights(AIRLINES, Route(fromCity, toCity, departDate), distance, draws);
    }

    /** `executeGesture`: fist and thumbs-up move the results list (when the
        page has one), palm puts the route back to JFK to LAX and changes no
        other field. */
    method ExecuteGesture(g: Gesture, containerPresent: bool)
      modifies this
      ensures scrollTop == ScrollAfter(g, old(scrollTop), containerPresent)
      ensures g == Palm ==> fromCity == HOME_FROM && toCity == HOME_TO
      ensures g != Palm ==> fromCity == old(fromCity) && toCity == old(toCity)
      ensures departDate == old(departDate) && flights == old(flights)
      ensures lastGesture == old(lastGesture) && lastGestureTime == old(lastGestureTime)
    {
      match g
      case Fist =>
        if containerPresent {
          scrollTop := scrollTop + SCROLL_STEP;
        }
      case Palm =>
        fromCity := HOME_FROM;
        toCity := HOME_TO;
      case ThumbsUp =>
        if containerPresent {
          scrollTop := if scrollTop - SCROLL_STEP > 0 then scrollTop - SCROLL_STEP else 0;
        }
      case Unknown =>
    }

    /** `handleGesture(gesture)` at time `now`. */
    method HandleGesture(g: Gesture, now: int, containerPresent: bool) returns (executed: bool)
      modifies this
      ensures (Record(), executed) == Step(old(Record()), Recognised(g, Unknown), now)
      ensures scrollTop == if executed then ScrollAfter(g, old(scrollTop), containerPresent) else old(scrollTop)
      ensures executed && g == Palm ==> fromCity == HOME_FROM && toCity == HOME_TO
      ensures !(executed && g == Palm) ==> fromCity == old(fromCity) && toCity == old(toCity)
      ensures departDate == old(departDate) && flights == old(flights)
    {
      executed := false;
      if g != Unknown {
        if Some(g) != lastGesture || now - lastGestureTime > GESTURE_DEBOUNCE_MS {
          lastGesture := Some(g);
          lastGestureTime := now;
          executed := true;
          ExecuteGesture(g, containerPresent);
        }
      }
    }
  }
}
