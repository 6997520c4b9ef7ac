/** The last dashboard: six airports, eight airlines, the PIP-joint gesture
    classifier, page scrolling by gesture, the sort menu, and a camera loop
    that hands every third frame to the hand tracker. */
module AppFinal {
  import opened Wrappers
  import opened Offers
  import opened Sorting
  import opened Synthesis
  import opened Sourcing
  import opened Debounce
  import opened PipGestures

  const AIRPORTS: set<string> := {"JFK", "LAX", "ORD", "LHR", "CDG", "FCO"}
  const AIRLINES: Airlines :=
    ["United", "Delta", "American", "Southwest", "JetBlue", "British Airways", "Air France", "Lufthansa"]
  /** No AviationStack key, real data on. */
  const CONFIG := Config("", true)

  /** The route the page opens with. */
  const HOME_FROM := "LAX"
  const HOME_TO := "LHR"

  /** Every third frame is passed to the hand tracker. */
  const FRAME_STRIDE := 3


  /** The `window.scrollBy` offset `executeGesture` asks for: peace scrolls down
      by 250, point scrolls up by 250, fist only shows the pause overlay. */
  function PageScroll(g: Gesture): (dy: int)
    ensures dy > 0 <==> g == Peace
    ensures dy < 0 <==> g == Point
    ensures dy == 0 || dy == 250 || dy == -250
  {
    match g
    case Peace => 250
    case Point => -250
    case _ => 0
  }

  /** With the shipped configuration the AviationStack tier is never reached. */
  lemma NoAviationWithoutKey(cache: map<string, CacheEntry>, key: string, feeds: Feeds)
    ensures ChooseTier(cache, key, CONFIG, feeds) != AviationTier
  {
  }

  /** How many of the next `n` frames are sent when `c` frames have been seen:
      frame number `c + k` is sent when it is a multiple of three. */
  function FramesSent(c: nat, n: nat): nat
  {
    if n == 0 then 0 else FramesSent(c, n - 1) + (if (c + n) % FRAME_STRIDE == 0 then 1 else 0)
  }

  /** Sending is counted frame by frame: the next `n + 1` frames send what the
      next `n` send plus what the single frame after them sends, so `n` calls of
      `OnFrame` with the tracker ready send `FramesSent(c, n)` frames. */
  lemma {:induction false} FramesSentExtend(c: nat, n: nat)
    ensures FramesSent(c, n + 1) == FramesSent(c, n) + FramesSent(c + n, 1)
  {
    assert FramesSent(c + n, 0) == 0;
  }

  /** Exactly the multiples of three in `c + 1 .. c + n` are sent. */
  lemma {:induction false} FramesSentCount(c: nat, n: nat)
    ensures FramesSent(c, n) == (c + n) / FRAME_STRIDE - c / FRAME_STRIDE
  {
    if n > 0 {
      FramesSentCount(c, n - 1);
    }
  }

  /** The dashboard's `state` record (its flight-search part is `search`) and
      the camera loop's counters. */
  class Dashboard {
    const search: Search
    var lastGesture: Option<Gesture>
    var lastGestureTime: int
    var frameCount: nat
    var graphInitialized: bool

    /** The initial `state`: route LAX to LHR, no date, no gesture yet. */
    constructor()
      ensures fresh(search)
      ensures search.airports == AIRPORTS && search.airlines == AIRLINES && search.config == CONFIG
      ensures search.fromCity == HOME_FROM && search.toCity == HOME_TO && search.departDate == ""
      ensures search.flights.Length == 0 && search.flightCache == map[] && search.Valid()
      ensures lastGesture == None && lastGestureTime == 0
      ensures frameCount == 0 && !graphInitialized
    {
      search := new Search(AIRPORTS, AIRLINES, CONFIG, HOME_FROM, HOME_TO);
      lastGesture := None;
      lastGestureTime := 0;
      frameCount := 0;
      graphInitialized := false;
    }

    function Record(): Tracker<Gesture>
      reads this
    {
      Tracker(lastGesture, lastGestureTime)
    }

    /** `handleGesture(gesture)` at time `now`: returns whether the gesture was
        executed and the page scroll it requested. */
    method HandleGesture(g: Gesture, now: int) returns (executed: bool, scroll: int)
      modifies this
      ensures (Record(), executed) == Step(old(Record()), Recognised(g, Unknown), now)
      ensures scroll == if executed then PageScroll(g) else 0
      ensures frameCount == old(frameCount) && graphInitialized == old(graphInitialized)
    {
      executed := false;
      scroll := 0;
      if g != Unknown {
        if Some(g) != lastGesture || now - lastGestureTime > GESTURE_DEBOUNCE_MS {
          lastGesture := Some(g);
          lastGestureTime := now;
          executed := true;
          scroll := PageScroll(g);
        }
      }
    }

    /** `sortFlights(sortType)`: re-orders the displayed list in place. The
        cache may hold this very array, and then its entry is re-ordered too;
        every other cached list is left alone. */
    method SortFlights(sortType: string)
      modifies search.flights
      ensures multiset(search.flights[..]) == multiset(old(search.flights[..]))
      ensures old(search.flights.Length) == 0 || ParseSortKey(sortType) == None ==>
        search.flights[..] == old(search.flights[..])
      ensures search.flights.Length > 0 && ParseSortKey(sortType).Some? ==>
        Sorted(search.flights[..], ParseSortKey(sortType).value)
      ensures forall key :: key in search.flightCache && search.flightCache[key].flights != search.flights ==>
        search.flightCache[key].flights[..] == old(search.flightCache[key].flights[..])
    {
      if search.flights.Length == 0 {
        return;
      }
      match ParseSortKey(sortType)
      case Some(k) => SortOffers(search.flights, k);
      case None =>
    }

    /** `camera.start()` resolved. */
    method CameraStarted()
      modifies this
      ensures graphInitialized && frameCount == old(frameCount)
      ensures lastGesture == old(lastGesture) && lastGestureTime == old(lastGestureTime)
    {
      graphInitialized := true;
    }

    /** The camera's `onFrame`: counts the frame and sends it to the hand
        tracker when the count is a multiple of three and the tracker is ready. */
    method OnFrame() returns (sent: bool)
      modifies this
      ensures frameCount == old(frameCount) + 1
      ensures sent <==> frameCount % FRAME_STRIDE == 0 && graphInitialized
      ensures graphInitialized ==> FramesSent(old(frameCount), 1) == if sent then 1 else 0
      ensures graphInitialized == old(graphInitialized)
      ensures lastGesture == old(lastGesture) && lastGestureTime == old(lastGestureTime)
    {
      frameCount := frameCount + 1;
      sent := frameCount % FRAME_STRIDE == 0 && graphInitialized;
    }
  }
}
