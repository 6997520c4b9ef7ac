# Gesture-controlled flight dashboard, modelled in Dafny

The repository ships three versions of one browser dashboard: `app.js`, `app-with-api.js` and `app-final.js`.
This project models their logic, which lies underneath the DOM, Leaflet and MediaPipe glue:

- **Flight search.** `generateFlights` checks the route and fills in the departure date.
  - In the two API-backed versions, `fetchRealFlightData` looks in a five-minute cache keyed by `from-to-date`.
  - On a miss it tries OpenSky, then AviationStack (only when a key is configured), then mock synthesis.
  - Only the two real-data tiers store their result, and the stored array is the very array the page then shows.
- **Offer synthesis.**
  - `generateMockFlights` builds ten offers with cyclic airlines.
  - `createFlightsFromData` labels `min(10, n)` offers with OpenSky callsigns.
  - The AviationStack mapping converts at most ten records.
  - The first version's `generateFlights` draws each airline at random.
  - The mock, OpenSky and random-airline lists are built in index order and then sorted by price in place. The AviationStack list keeps the feed's order.
- **Re-sorting.** `sortFlights` sorts the shown list in place by price, by the hour count at the head of the duration, or by airline name.
- **Gesture classification.** There are two decision tables over hand-landmark heights:
  - the PIP-joint table with a 0.05 dead band (`app-final.js`);
  - the base-joint extended-count table (`app.js`, `app-with-api.js`).
- **Gesture handling.**
  - The 350 ms debounce of `handleGesture`.
  - The actions of `executeGesture`: scrolling the results list (never above the top), resetting the route to JFK to LAX, or asking the page to scroll.
  - The camera loop that passes every third frame to the hand tracker.

## Layout

| file | modules | what it holds |
|---|---|---|
| `wrappers.dfy` | `Wrappers` | `Option`, `Min` |
| `js_text.dfy` | `JsText` | JavaScript primitives written out: `String(n)`, `parseInt`, `padStart(2,'0')`, `trim`, ASCII `toUpperCase`, `substring(0,n)`, `split(c)[0]` and the truncating `%`. Code-unit string order approximates `localeCompare` |
| `offers.dfy` | `Offers` | the offer record and the per-index arithmetic of one synthesised offer |
| `sorting.dfy` | `Sorting` | sort keys, comparators, the in-place sort, and what a permutation keeps |
| `synthesis.dfy` | `Synthesis` | each generator as a function of its inputs, plus the in-place methods that build and sort it |
| `sourcing.dfy` | `Sourcing` | the cache, the tier chain, and the `Search` class that holds the flight-search state of the two API-backed versions |
| `gestures.dfy` | `Landmarks`, `PipGestures`, `McpGestures` | the two classifiers and the results-list scroll |
| `debounce.dfy` | `Debounce` | the debounce step and its behaviour over a stream of calls |
| `app_final.dfy`, `app_with_api.dfy`, `app.dfy` | `AppFinal`, `AppWithApi`, `App` | each version's configuration, `state` record and handlers |

Everything the code draws from outside is a parameter:

- each `Math.random()` draw is a real in [0, 1), supplied per offer index;
- prices, the route distance in whole miles, `Date.now()` and tomorrow's date are inputs;
- each feed's answer is `Option` of its rows, where `None` stands for a failed or "not ok" request.

## Model

| member | source | states |
|---|---|---|
| JsText.NatToString | app-final.js:404 | `String(n)` of a non-negative number is a non-empty string of decimal digits |
| JsText.IntToString | app-final.js:404 | `String(n)` is non-empty: all decimal digits when `n` is not negative, a minus sign followed by digits otherwise; it starts with a digit exactly when `n >= 0` |
| JsText.ParseInt | app-final.js:968 | `parseInt` is NaN exactly when no digit follows the leading white space and the optional sign; a negative result comes only from a leading `-` |
| JsText.PaddedBelow100 | app-final.js:404 | a number in 0..99, printed and padded to two, is exactly two digits |
| JsText.ParseIntOfDigitStart | app-final.js:968 | a string that starts with a digit parses to a number that is not negative |
| JsText.LeadingDigits | app-final.js:968 | the digits `parseInt` reads are decimal digits and form a prefix of the input |
| JsText.TrimStart | app-final.js:284 | the result is the input with its leading white space removed: a suffix that does not start with white space, and every dropped character is white space |
| JsText.TrimEnd | app-final.js:284 | the result is the input with its trailing white space removed: a prefix that does not end with white space, and every dropped character is white space |
| JsText.SplitHead | app-final.js:968 | `split(sep)[0]` is the prefix of the string before its first `sep`, or the whole string when it has none |
| JsText.Substring0 | app-final.js:414 | `substring(0, n)` is a prefix of length `min(n, length)` |
| JsText.UpperAscii | app-final.js:414 | upper-casing keeps the length, maps each ASCII lower-case letter to its upper-case letter and keeps every other character |
| JsText.JsRem | app-final.js:407 | `%` has the dividend's sign, lies strictly between `-b` and `b`, and agrees with the mathematical remainder for non-negative dividends |
| JsText.ParseIntOfIntToString | app-final.js:968 | `parseInt(String(n) + rest)` is `n` for every integer `n`, negative ones included, whenever `rest` does not start with a digit |
| JsText.IntToStringInjective | app-final.js:414 | different integers print differently |
| JsText.ParseIntOfPadded | app-final.js:404 | a zero-padded hour still parses to that hour |
| JsText.TrimIdempotent | app-final.js:284-286 | a trimmed string has no white space at either end, and trimming it again changes nothing |
| JsText.LexLeTotal | app-final.js:974 | any two airline names are comparable |
| JsText.LexLeTransitive | app-final.js:974 | the airline order is transitive |
| Offers.RandomMinute | app-final.js:401 | `Math.floor(Math.random() * 60)` lies in 0..59 |
| Offers.RandomBelow30 | app-final.js:406 | `Math.floor(Math.random() * 30)` lies in 0..29 |
| Offers.Perturbation | app-final.js:402 | the flight-time perturbation is a whole number of hours in -30..29 |
| Offers.BaseFlightTime | app-final.js:395 | `Math.ceil(distance / 500)`: the least number of hours covering the distance at 500 miles per hour |
| Offers.Stops | app-final.js:409 | an offer is non-stop exactly when its draw exceeds the threshold; otherwise it has one stop |
| Offers.ClockString | app-final.js:404 | for an hour and minute in 0..99 the clock string is `HH:MM`: five characters, two digits, a colon, two digits |
| Offers.DurationString | app-final.js:419 | the duration text is the printed hour count, then `h`, and it ends in `m` |
| Offers.FlightNumber | app-final.js:414 | a flight number is the airline's first two characters upper-cased (no lower-case letter left), followed by exactly `String(1000 + i)`, which is all digits |
| Offers.Synthesize | app-final.js:398-425 | an offer carries the given airline, flight number, route, date, price and source tag. It has at most one stop, none exactly when the stop draw exceeds the threshold, and a departure time of the form `HH:MM`: two digits, a colon, two digits. The departure time is the slot hour with the drawn minute, and the arrival time is the arrival hour with the arrival minute, so the arrival-minute and arrival-hour lemmas apply to every offer |
| Offers.DurationHours | app-final.js:967-970 | the duration sort key is 0 when no text precedes the `h`, and is not negative when the duration starts with a digit |
| Offers.DurationRecoversFlightTime | app-final.js:967-970 | the duration sort key `parseInt(duration.split('h')[0])` of a duration printed from `h` hours is `h`, for negative `h` too |
| Offers.DurationHead | app-final.js:968 | the text before the `h` of a printed duration is the printed hour count |
| Offers.SynthesizedDuration | app-final.js:402-419 | the duration key of a synthesised offer is exactly the perturbed flight time it was built with |
| Offers.DepartureHourParses | app-final.js:400-404 | the departure time of offer `i` parses to its slot hour `floor(6 + 1.5 i)` |
| Offers.DepartHourIncreasing | app-final.js:400 | later slots depart strictly later |
| Offers.TenDepartHours | app-final.js:398-400 | the ten slot hours are 6, 7, 9, 10, 12, 13, 15, 16, 18, 19 |
| Offers.DepartHourTwoDigits | app-final.js:404 | each of the ten slot hours prints with exactly two digits |
| Offers.ArrivalMinuteWraps | app-final.js:406-407 | the arrival minute lies in 0..59 and equals the departure minute plus the extra minutes, less 60 on overflow, with nothing carried into the hour |
| Offers.ArrivalHourRange | app-final.js:405-407 | the arrival hour is the sum modulo 24 when the sum is not negative, and a number in -23..0 when it is |
| Offers.NegativeArrivalHourExample | app-final.js:402-407 | a one-hour route with the lowest perturbation has flight time -29 and arrival hour -23 |
| Offers.FlightNumberInjective | app-final.js:414 | two generated flight numbers coincide only for the same index, for any two configured airlines (names of at least two characters) |
| Sorting.ParseSortKey | app-final.js:962-976 | `price`, `duration` and `airline` select their comparator, each exactly for its own menu value; any other value selects none |
| Sorting.LeTotal | app-final.js:963-975 | each comparator relates any two offers one way or the other |
| Sorting.LeTransitive | app-final.js:963-975 | each comparator is transitive |
| Sorting.SortOffers | app-final.js:964 | the in-place sort leaves the array ordered by the key and a permutation of what it held |
| Sorting.Insert | app-final.js:964 | one insertion step extends the ordered prefix by one element. The first `i + 1` offers hold what they held before, everything after them stays in place, and the whole array is a permutation of what it held |
| Sorting.SwapStep | app-final.js:964 | one exchange of neighbours moves the inserted offer one place down, keeps the order of the others and the contents, and leaves the tail alone |
| Sorting.InsertClosed | app-final.js:964 | where the insertion stops, the first `i + 1` offers are in order |
| Sorting.SuffixKeptPrefixPermuted | app-final.js:964 | when a list is a permutation of another and their tails agree, their heads are permutations of each other |
| Sorting.PermutationKeepsDistinct | app-final.js:428 | re-ordering a list never makes two offers agree on a field in which all offers differed |
| Synthesis.Tabulate | app-final.js:398-426 | the list `[offer(0), ..., offer(n-1)]` |
| Synthesis.PushOffers | app-final.js:396-426 | the push loop fills a fresh array with exactly the offers of indices `0..n-1`, in order |
| Synthesis.MockOffers | app-final.js:398 | the mock list has ten offers |
| Synthesis.MockOfferShape | app-final.js:399-425 | mock offer `i` has airline `i mod (number of airlines)`, the generated flight number, the Mock tag, at most one stop, the route and date, slot hour `floor(6 + 1.5 i)` and the perturbed flight time as its duration key |
| Synthesis.MockOffersDistinct | app-final.js:400-414 | mock flight numbers and mock departure times are pairwise distinct |
| Synthesis.MockOffersFacts | app-final.js:398-426 | every mock offer is mock-tagged with at most one stop, and flight numbers and departure times are distinct |
| Synthesis.ArrangedMockFacts | app-final.js:428 | sorting keeps the tags, the stop bound and the distinctness |
| Synthesis.GenerateMockFlights | app-final.js:393-430 | ten fresh offers, a price-sorted permutation of the mock list, all mock-tagged, at most one stop each, distinct flight numbers and departure times |
| Synthesis.CallsignIsTrimmed | app-final.js:286 | a callsign is its own `trim()` |
| Synthesis.TrimmedIsCallsign | app-final.js:284-286 | a non-empty `trim()` result is non-empty and trimmed |
| Synthesis.UsableCallsigns | app-final.js:284-286 | filtering and trimming yields no more strings than states, each non-empty and trimmed; with UsableCallsignsOne and UsableCallsignsAppend it keeps exactly the states with a callsign whose trim is non-empty, trimmed, in feed order |
| Synthesis.Callsigns | app-final.js:283-286 | exactly `min(15, n)` callsigns for `n` usable ones, taken from the front of the usable list, each non-empty and trimmed |
| Synthesis.UsableCallsignsOne | app-final.js:284-286 | a single feed state yields its trimmed callsign exactly when it has one whose trim is non-empty, and nothing otherwise |
| Synthesis.UsableCallsignsAppend | app-final.js:284-286 | filtering distributes over concatenation of feeds |
| Synthesis.CallsignsKeepFeedOrder | app-final.js:283-286 | more states at the end of the feed only add callsigns after those already taken |
| Synthesis.OpenSkyCount | app-final.js:347 | `Math.min(10, realCallsigns.length or 10)`: ten without callsigns, otherwise `min(10, n)` |
| Synthesis.OpenSkyOffers | app-final.js:347 | the OpenSky list has `OpenSkyCount` offers |
| Synthesis.OpenSkyOfferLabels | app-final.js:347-376 | with callsigns, offer `i` is labelled with callsign `i`; without any, it gets the generated number. Every offer is tagged as real OpenSky data, has at most one stop, and its duration key is its flight time |
| Synthesis.CreateFlightsFromData | app-final.js:342-381 | a fresh, non-empty array of `OpenSkyCount` offers that is a price-sorted permutation of the OpenSky list |
| Synthesis.ScheduledHours | app-with-api.js:279 | the floor of the scheduled gap in hours: `h` hours fit in the gap and `h + 1` do not |
| Synthesis.AviationOffers | app-with-api.js:276 | at most ten records are mapped: `min(10, n)` offers |
| Synthesis.AviationOfferShape | app-with-api.js:276-294 | each mapped offer is non-stop, AviationStack-tagged and keeps the record's airline, and its duration key is the floor of the scheduled gap in hours |
| Synthesis.RandomAirline | app.js:156 | the randomly drawn airline is one of the configured airlines |
| Synthesis.ScaledDrawBelow | app.js:156 | `Math.floor(Math.random() * n)` is a valid index below `n` |
| Synthesis.RandomAirlineOffers | app.js:155 | the first version's list has ten offers |
| Synthesis.RandomAirlineOffersDistinct | app.js:155-183 | even with random airlines, flight numbers and departure times are pairwise distinct; every offer has at most one stop, no source tag and a configured airline |
| Synthesis.ArrangedRandomAirlineFacts | app.js:186 | sorting keeps those facts |
| Synthesis.GenerateRandomAirlineFlights | app.js:154-186 | ten fresh offers, a price-sorted permutation of the random-airline list, with distinct flight numbers and departure times |
| Sourcing.ChooseTier | app-final.js:223-266 | the AviationStack tier is chosen only when a key is configured |
| Sourcing.CacheReuseWindow | app-final.js:224-241 | a list stored by a real-data tier is served again for the same key exactly while less than 300000 ms have passed since it was stored |
| Sourcing.CacheExpiresAtTtl | app-final.js:226 | at exactly 300000 ms the entry is no longer served |
| Sourcing.FallbackNotCached | app-final.js:264-266 | the mock fallback and a cache hit leave the cache as it was, for every later search |
| Sourcing.OtherKeysUnaffected | app-final.js:237-241 | storing under one key never changes how another key is served |
| Sourcing.CacheKey | app-final.js:223 | the key is origin, `-`, destination, `-`, date: it starts with the origin, has a dash right after the origin and right after the destination, and ends with the date |
| Sourcing.CacheAfter | app-final.js:237-256 | the OpenSky and AviationStack tiers store the handed-out array under the key with the store time. A cache hit and the mock tier leave the cache as it was, and no other key changes |
| Sourcing.CacheKeyInjective | app-final.js:223 | when no airport code contains `-`, two searches share a cache key only when origin, destination and date all agree |
| Sourcing.Search.constructor | app-final.js:25-38 | the initial search state: the given route, no date, no flights, an empty cache |
| Sourcing.Search.FetchRealFlightData | app-final.js:219-267 | the list comes from the first tier that answers: a cache hit hands out the cached array itself, and each other tier hands out a fresh array holding what that tier yields. The cache gains an entry, stamped with the store time, exactly for the OpenSky and AviationStack tiers. Route, date and shown list are untouched. The list holds between one and ten offers, and every cached list stays within those bounds. The same code is at app-with-api.js:180-228 |
| Sourcing.Search.GenerateFlights | app-final.js:165-204 | an unknown or repeated airport gives an empty list and touches neither date nor cache. Otherwise the date defaults to tomorrow only when empty, and the list holds between one and ten offers and comes from the tier chain, or from mock synthesis when real data is off. The same code is at app-with-api.js:126-165 |
| PipGestures.Detect | app-final.js:759-804 | peace, point and fist each hold exactly when their own finger condition does, so the order of the checks does not matter |
| PipGestures.NeverCurledAndExtended | app-final.js:771-780 | no finger is both curled and extended |
| PipGestures.DeadBandIsUnknown | app-final.js:777-803 | an index tip at most 0.05 above its middle joint, and not below it, forces `'unknown'` |
| McpGestures.ExtendedCount | app-with-api.js:640 | at most four fingers count as extended |
| McpGestures.Detect | app-with-api.js:623-647 | fist exactly when no finger is up, palm exactly when all four are, thumbs-up exactly when the index is up, the middle finger is not, and the thumb tip is above the index base. The same table is at app.js:422-446 |
| McpGestures.DetectReadsNineLandmarks | app-with-api.js:624-638 | the label depends only on the heights of landmarks 4, 5, 8, 9, 12, 13, 16, 17 and 20 |
| McpGestures.ScrollAfter | app-with-api.js:681-703 | the results-list offset never goes negative from a non-negative start. Palm, unknown, or a page without a results list leave it alone |
| McpGestures.ScrollRoundTrip | app-with-api.js:685-701 | thumbs-up undoes a fist, and a fist undoes a thumbs-up unless that hit the top |
| Debounce.Recognised | app-final.js:809 | `'unknown'` is no gesture; every other label is itself. The same test is at app-with-api.js:652 and app.js:451 |
| Debounce.Step | app-final.js:825-829 | a recognised label is acted on exactly when it differs from the last one acted on or more than 350 ms have passed. Acting records label and time; otherwise, and always for `'unknown'`, the record is unchanged |
| Debounce.FinalIsLastExecuted | app-final.js:825-829 | after any sequence of calls the record names the last gesture executed and its time |
| Debounce.RepeatsAreSpaced | app-final.js:825 | over any sequence of calls, two consecutive executions of the same gesture are more than 350 ms apart |
| AppFinal.PageScroll | app-final.js:838-869 | peace asks for a scroll of +250 pixels and point for -250; any other gesture asks for none |
| AppFinal.NoAviationWithoutKey | app-final.js:19 | with the shipped empty key the AviationStack tier is never reached |
| AppFinal.FramesSentExtend | app-final.js:680-682 | the frames sent over `n + 1` frames are those sent over the first `n` plus what the next single frame sends, which chains `OnFrame`'s one-call contract into `FramesSent(c, n)` over `n` calls |
| AppFinal.FramesSentCount | app-final.js:680-682 | of the next `n` frames after `c`, exactly `(c+n)/3 - c/3` are sent |
| AppFinal.Dashboard.constructor | app-final.js:25-38 | the initial state: six airports, eight airlines, no key, real data on, route LAX to LHR, no date, no flights, empty cache, no gesture, frame count 0, tracker not ready |
| AppFinal.Dashboard.HandleGesture | app-final.js:806-836 | the record evolves by `Debounce.Step`, an executed peace or point asks for a scroll of +250 or -250 pixels, and the frame counter is untouched |
| AppFinal.Dashboard.SortFlights | app-final.js:959-979 | the shown list stays a permutation. It is unchanged when empty or for an unknown key, and ordered by the chosen key otherwise. A cached array is re-ordered only when it is the shown array itself |
| AppFinal.Dashboard.CameraStarted | app-final.js:697-702 | `camera.start()` resolving marks the tracker ready and leaves the frame count alone |
| AppFinal.Dashboard.OnFrame | app-final.js:672-691 | every frame increments the count, and a frame is sent exactly when the count is a multiple of three and the tracker is ready. Once the tracker is ready, one call sends `FramesSent(c, 1)` frames, so `n` calls send `FramesSent(c, n)` |
| AppWithApi.Dashboard.constructor | app-with-api.js:22-33 | the initial state: three airports, five airlines, route JFK to LAX, no date, no flights, empty cache, no gesture, offset 0 |
| AppWithApi.Dashboard.ExecuteGesture | app-with-api.js:681-703 | the offset moves as `ScrollAfter` says; palm sets the route to JFK to LAX; no other field changes |
| AppWithApi.Dashboard.HandleGesture | app-with-api.js:649-679 | the record evolves by `Debounce.Step`, and only an executed gesture moves the offset or resets the route |
| App.Dashboard.constructor | app.js:17-29 | the initial state: route JFK to LAX, no date, no flights, no gesture, offset 0 |
| App.Dashboard.GenerateFlights | app.js:130-188 | an unknown or repeated airport empties the list and keeps the date. Otherwise the date defaults to tomorrow only when empty, and the list becomes ten offers: a price-sorted permutation of the random-airline list, with distinct flight numbers and departure times, at most one stop, and configured airlines |
| App.Dashboard.ExecuteGesture | app.js:482-505 | the offset moves as `ScrollAfter` says; palm sets the route to JFK to LAX; no other field changes |
| App.Dashboard.HandleGesture | app.js:448-480 | the record evolves by `Debounce.Step`, and only an executed gesture moves the offset or resets the route |

Behaviours of the code a reader might not expect; the model follows the code in each:

- **Perturbation.** The "+/- 30 min" perturbation is `Math.floor(Math.random() * 60 - 30)`, added to a number of hours. A flight time can therefore be anything from 30 hours less to 29 hours more than the base, including negative values (`Offers.NegativeArrivalHourExample`).
- **Arrival time.** It is not departure plus duration modulo 24 hours:
  - the minute wraps without carrying into the hour;
  - the hour uses JavaScript's truncating `%`, so it is never positive for a negative sum (a multiple of 24 gives 0);
  - the printed duration's minutes are a separate draw.
- **Sorting aliases the cache.** `sortFlights` sorts the shown array in place. After a cache hit, or right after a real-data tier stored its list, that array is the cached one, so the cache entry is re-ordered too.
- **The AviationStack list is not price-sorted.** The mock and OpenSky generators sort their lists by price, but the AviationStack mapping (app-final.js:315-334, app-with-api.js:276-294) returns the records in feed order. `Synthesis.AviationOffers` keeps that order.
- **Cache expiry.** Validity is `age < 300000`, so an entry expires at exactly five minutes rather than only once it is older.

## Left out

- Leaflet maps, HTML rendering, loading placeholders, status text, form wiring and `init`: presentation only.
- `calculateDistance` and `calculatePrice`: floating-point haversine and pricing. The distance in whole miles and every price are inputs.
- `fetch`, the CORS proxy, JSON decoding and ISO timestamp parsing. Each feed's answer is an input: the OpenSky callsign fields and the AviationStack records with their times already in milliseconds. `toLocaleTimeString` output is part of each AviationStack record.
- `Date`, `Date.now()` and `toISOString`: tomorrow's date and the two clock readings of a search are inputs.
- async/await interleaving: each search runs to completion before the next one starts. The code does not guard against out-of-order responses.
- MediaPipe `Hands`, `Camera` and the canvas drawing: the classifier receives the 21 landmarks, and `hands.send` is the `sent` result of `OnFrame`.
- The order in which `Math.random()` is consumed: each tier and each offer index has its own draws.
- The `catch` branches of `fetchRealFlightData` (app-final.js:243-245, 259-261) are not separate members. A failed request is a `None` feed, and the model then falls through to the next tier, as the code does. The `catch` of `generateFlights` and the one around `hands.send` are left out, because with the feeds as inputs neither the tier chain nor the tracker can throw.
- The `length > 0` test after `createFlightsFromData`, which always holds. The model still proves the list non-empty.
- Sorting.Le: `localeCompare` is approximated by code-unit order.
- Sorting.SortOffers: `Array.prototype.sort` is stable, and the model does not state stability. It proves only that the result is ordered and a permutation of the input.
- Offers.DurationHours: a `NaN` duration key would count as 0. No duration the model builds parses to `NaN`.
- JsText.ParseInt: the `0x` prefix of `parseInt` is not modelled, since every parsed string is built by the model from decimal digits.
- JsText.UpperAscii: non-ASCII upper-casing is not modelled, since all configured airline names are ASCII.
- McpGestures.ScrollAfter: the browser's clamp of `scrollTop` at the bottom of the list is not modelled.
- AppFinal.Dashboard.HandleGesture: the requested `window.scrollBy` offset is returned. The page's own clamping and the 800 ms pause overlay are not modelled.
- `extendedCount` in the PIP classifier is computed but never used, and is not modelled.
