/** The API-backed dashboard: three airports, five airlines, the base-joint
    gesture classifier and gestures that scroll the results list or reset the
    route. */
module AppWithApi {
  import opened Wrappers
  import opened Synthesis
  import opened Sourcing
  import opened Debounce
  import opened McpGestures

  const AIRPORTS: set<string> := {"JFK", "LAX", "ORD"}
  const AIRLINES: Airlines := ["United", "Delta", "American", "Southwest", "JetBlue"]
  /** No AviationStack key, real data on. */
  const CONFIG := Config("", true)

  /** The route the palm gesture resets to. */
  const HOME_FROM := "JFK"
  const HOME_TO := "LAX"


  /** The dashboard's `state` record (its flight-search part is `search`) and
      the results list's scroll offset. */
  class Dashboard {
    const search: Search
    var lastGesture: Option<Gesture>
    var lastGestureTime: int
    var scrollTop: int

    /** The initial `state`: route JFK to LAX, no date, no gesture yet. */
    constructor()
      ensures fresh(search)
      ensures search.airports == AIRPORTS && search.airlines == AIRLINES && search.config == CONFIG
      ensures search.fromCity == HOME_FROM && search.toCity == HOME_TO && search.departDate == ""
      ensures search.flights.Length == 0 && search.flightCache == map[] && search.Valid()
      ensures lastGesture == None && lastGestureTime == 0 && scrollTop == 0
    {
      var s := new Search(AIRPORTS, AIRLINES, CONFIG, HOME_FROM, HOME_TO);
      search := s;
      lastGesture := None;
      lastGestureTime := 0;
      scrollTop := 0;
    }

    function Record(): Tracker<Gesture>
      reads this
    {
      Tracker(lastGesture, lastGestureTime)
    }

    /** `executeGesture`: fist and thumbs-up move the results list (when the
        page has one), palm puts the route back to JFK to LAX and changes no
        other search field; the list itself is not regenerated. */
    method ExecuteGesture(g: Gesture, containerPresent: bool)
      modifies this, search
      ensures scrollTop == ScrollAfter(g, old(scrollTop), containerPresent)
      ensures g == Palm ==> search.fromCity == HOME_FROM && search.toCity == HOME_TO
      ensures g != Palm ==> search.fromCity == old(search.fromCity) && search.toCity == old(search.toCity)
      ensures search.departDate == old(search.departDate) && search.flights == old(search.flights)
      ensures search.flightCache == old(search.flightCache)
      ensures lastGesture == old(lastGesture) && lastGestureTime == old(lastGestureTime)
    {
      match g
      case Fist =>
        if containerPresent {
          scrollTop := scrollTop + SCROLL_STEP;
        }
      case Palm =>
        search.fromCity := HOME_FROM;
        search.toCity := HOME_TO;
      case ThumbsUp =>
        if containerPresent {
          scrollTop := if scrollTop - SCROLL_STEP > 0 then scrollTop - SCROLL_STEP else 0;
        }
      case Unknown =>
    }

    /** `handleGesture(gesture)` at time `now`: the debounce decides, and an
        accepted gesture is executed. */
    method HandleGesture(g: Gesture, now: int, containerPresent: bool) returns (executed: bool)
      modifies this, search
      ensures (Record(), executed) == Step(old(Record()), Recognised(g, Unknown), now)
      ensures scrollTop == if executed then ScrollAfter(g, old(scrollTop), containerPresent) else old(scrollTop)
      ensures executed && g == Palm ==> search.fromCity == HOME_FROM && search.toCity == HOME_TO
      ensures !(executed && g == Palm) ==>
        search.fromCity == old(search.fromCity) && search.toCity == old(search.toCity)
      ensures search.departDate == old(search.departDate) && search.flights == old(search.flights)
      ensures search.flightCache == old(search.flightCache)
    {
      executed := false;
      if g != Unknown {
        if Some(g) != lastGesture || now - lastGestureTime > GESTURE_DEBOUNCE_MS {
          lastGesture := Some(g);
          lastGestureTime := now;
          executed := true;
          ExecuteGesture(g, containerPresent);
        }
      }
    }
  }
}
