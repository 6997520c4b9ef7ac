/** A flight offer and the per-index arithmetic that synthesises one: departure
    slot, perturbed flight time, clock strings, duration string, stop count and
    generated flight number. Every `Math.random()` draw is an explicit `Unit`
    value and the floating-point price is an explicit integer. */
module Offers {
  import opened Wrappers
  import opened JsText

  /** One `Math.random()` draw. */
  type Unit = r: real | 0.0 <= r < 1.0

  /** The random draws consumed while building offer number i. */
  datatype Draws = Draws(
    airline: Unit,          // airline index draw (only the first dashboard draws the airline)
    departMinute: Unit,
    shift: Unit,            // flight-time perturbation
    arriveExtra: Unit,
    stop: Unit,
    durationMinute: Unit,
    price: int)             // what `calculatePrice` returned for this offer

  /** Whether an offer carries the data-source tag, and which. */
  datatype Provenance = Untagged | Tagged(isRealData: bool, source: string)

  datatype Offer = Offer(
    airline: string,
    flightNumber: string,
    from: string,
    to: string,
    departTime: string,
    arriveTime: string,
    duration: string,
    stops: nat,
    price: int,
    date: string,
    provenance: Provenance)

  /** The route and travel date every offer of one search is stamped with. */
  datatype Route = Route(from: string, to: string, date: string)

  const MOCK := Tagged(false, "Mock")
  const OPEN_SKY := Tagged(true, "OpenSky")
  const AVIATION_STACK := Tagged(true, "AviationStack")

  /** `Math.floor(Math.random() * 60)` */
  function RandomMinute(u: Unit): (r: int)
    ensures 0 <= r < 60
  {
    (u * 60.0).Floor
  }

  /** `Math.floor(Math.random() * 30)` */
  function RandomBelow30(u: Unit): (r: int)
    ensures 0 <= r < 30
  {
    (u * 30.0).Floor
  }

  /** `Math.floor(Math.random() * 60 - 30)`: the documented "+/- 30 min" is added
      to a number of hours. */
  function Perturbation(u: Unit): (d: int)
    ensures -30 <= d < 30
  {
    (u * 60.0 - 30.0).Floor
  }

  /** `Math.ceil(distance / 500)` for the whole-mile distance. */
  function BaseFlightTime(distance: nat): (h: nat)
    ensures distance <= h * 500 < distance + 500
  {
    (distance + 499) / 500
  }

  /** `Math.floor(6 + i * 1.5)` */
  function DepartHour(i: nat): nat
  {
    6 + (3 * i) / 2
  }

  function FlightTime(base: int, d: Draws): int
  {
    base + Perturbation(d.shift)
  }

  /** `Math.floor(departHour + flightTime) % 24` with the truncating `%`; the
      flight time is a whole number, so the half hour of `departHour` drops. */
  function ArrivalHour(i: nat, flightTime: int): int
  {
    JsRem(DepartHour(i) + flightTime, 24)
  }

  /** `(departMinute + Math.floor(Math.random() * 30)) % 60` */
  function ArrivalMinute(d: Draws): int
  {
    (RandomMinute(d.departMinute) + RandomBelow30(d.arriveExtra)) % 60
  }

  /** `${pad(h)}:${pad(m)}` */
  function ClockString(h: int, m: int): (r: string)
    ensures 0 <= h < 100 && 0 <= m < 100 ==>
      |r| == 5 && r[2] == ':' && AllDigits(r[..2]) && AllDigits(r[3..])
  {
    var hh := PadStart2(IntToString(h));
    var mm := PadStart2(IntToString(m));
    if 0 <= h < 100 && 0 <= m < 100 then
      PaddedBelow100(h);
      PaddedBelow100(m);
      hh + ":" + mm
    else
      hh + ":" + mm
  }

  /** `${hours}h ${minutes}m` */
  function DurationString(hours: int, minutes: int): (r: string)
    ensures |IntToString(hours)| < |r| && IntToString(hours) <= r && r[|IntToString(hours)|] == 'h'
    ensures r[|r| - 1] == 'm'
  {
    IntToString(hours) + "h " + IntToString(minutes) + "m"
  }

  /** `Math.random() > threshold ? 0 : 1` */
  function Stops(u: Unit, threshold: real): (s: nat)
    ensures s == 0 <==> u > threshold
    ensures s <= 1
  {
    if u > threshold then 0 else 1
  }

  /** `${airline.substring(0, 2).toUpperCase()}${1000 + i}` */
  function FlightNumber(airline: string, i: nat): (r: string)
    ensures |r| == Min(2, |airline|) + |IntToString(1000 + i)|
    ensures forall k :: 0 <= k < Min(2, |airline|) ==> !('a' <= r[k] <= 'z')
    ensures AllDigits(r[Min(2, |airline|)..])
    ensures r[..Min(2, |airline|)] == UpperAscii(Substring0(airline, 2))
    ensures r[Min(2, |airline|)..] == IntToString(1000 + i)
  {
    UpperAscii(Substring0(airline, 2)) + IntToString(1000 + i)
  }

  /** Offer number i of a synthesised list. */
  function Synthesize(airline: string, flightNumber: string, route: Route, i: nat, base: int,
                      d: Draws, stopThreshold: real, provenance: Provenance): (r: Offer)
    ensures r.airline == airline && r.flightNumber == flightNumber && r.provenance == provenance
    ensures r.from == route.from && r.to == route.to && r.date == route.date && r.price == d.price
    ensures r.stops <= 1 && (r.stops == 0 <==> d.stop > stopThreshold)
    ensures DepartHour(i) < 100 ==>
      |r.departTime| == 5 && r.departTime[2] == ':'
      && AllDigits(r.departTime[..2]) && AllDigits(r.departTime[3..])
    ensures r.departTime == ClockString(DepartHour(i), RandomMinute(d.departMinute))
    ensures r.arriveTime == ClockString(ArrivalHour(i, FlightTime(base, d)), ArrivalMinute(d))
  {
    var minute := RandomMinute(d.departMinute);
    var flightTime := FlightTime(base, d);
    Offer(airline, flightNumber, route.from, route.to,
          ClockString(DepartHour(i), minute),
          ClockString(ArrivalHour(i, flightTime), ArrivalMinute(d)),
          DurationString(flightTime, RandomMinute(d.durationMinute)),
          Stops(d.stop, stopThreshold), d.price, route.date, provenance)
  }

  /** The duration sort key `parseInt(duration.split('h')[0])`; a NaN key counts as 0. */
  function DurationHours(o: Offer): (n: int)
    ensures SplitHead(o.duration, 'h') == [] ==> n == 0
    ensures o.duration != [] && IsDigit(o.duration[0]) ==> n >= 0
  {
    var head := SplitHead(o.duration, 'h');
    if head != [] && IsDigit(head[0]) then
      ParseIntOfDigitStart(head);
      ParseInt(head).value
    else
      match ParseInt(head)
      case Some(n) => n
      case None => 0
  }

  // ---------------------------------------------------------------------------
  // Lemmas

  lemma {:induction false} SplitHeadBeforeSeparator(p: string, rest: string, sep: char)
    requires sep !in p && rest != [] && rest[0] == sep
    ensures SplitHead(p + rest, sep) == p
  {
    if p != [] {
      assert (p + rest)[1..] == p[1..] + rest;
      SplitHeadBeforeSeparator(p[1..], rest, sep);
    } else {
      assert p + rest == rest;
    }
  }

  lemma NoLetterInNumber(n: int)
    ensures 'h' !in IntToString(n)
  {
    var s := IntToString(n);
    assert forall k :: 0 <= k < |s| ==> s[k] == '-' || IsDigit(s[k]);
  }

  /** Sorting by duration reads back exactly the flight time the offer was
      built with, negative flight times included. */
  lemma DurationRecoversFlightTime(hours: int, minutes: int, o: Offer)
    requires o.duration == DurationString(hours, minutes)
    ensures DurationHours(o) == hours
  {
    DurationHead(hours, minutes);
    ParseIntOfIntToString(hours, []);
    assert IntToString(hours) + [] == IntToString(hours);
  }

  /** The text before the `h` of a duration is its hour count. */
  lemma DurationHead(hours: int, minutes: int)
    ensures SplitHead(DurationString(hours, minutes), 'h') == IntToString(hours)
  {
    var head := IntToString(hours);
    var mins := IntToString(minutes);
    var tail := "h " + mins + "m";
    assert DurationString(hours, minutes) == head + tail by {
      AppendAssociative(head, "h ", mins);
      AppendAssociative(head, "h " + mins, "m");
    }
    assert tail[0] == 'h';
    NoLetterInNumber(hours);
    SplitHeadBeforeSeparator(head, tail, 'h');
  }

  lemma SynthesizedDuration(airline: string, flightNumber: string, route: Route, i: nat, base: int,
                            d: Draws, stopThreshold: real, provenance: Provenance)
    ensures DurationHours(Synthesize(airline, flightNumber, route, i, base, d, stopThreshold, provenance))
            == FlightTime(base, d)
  {
    var o := Synthesize(airline, flightNumber, route, i, base, d, stopThreshold, provenance);
    DurationRecoversFlightTime(FlightTime(base, d), RandomMinute(d.durationMinute), o);
  }

  /** `parseInt(departTime)` is the departure slot's hour, zero padding notwithstanding. */
  lemma DepartureHourParses(airline: string, flightNumber: string, route: Route, i: nat, base: int,
                            d: Draws, stopThreshold: real, provenance: Provenance)
    ensures ParseInt(Synthesize(airline, flightNumber, route, i, base, d, stopThreshold, provenance).departTime)
            == Some(DepartHour(i) as int)
  {
    var o := Synthesize(airline, flightNumber, route, i, base, d, stopThreshold, provenance);
    var hour := PadStart2(IntToString(DepartHour(i)));
    var rest := ":" + PadStart2(IntToString(RandomMinute(d.departMinute)));
    assert o.departTime == hour + rest by {
      assert o.departTime == ClockString(DepartHour(i), RandomMinute(d.departMinute));
      AppendAssociative(hour, ":", PadStart2(IntToString(RandomMinute(d.departMinute))));
    }
    ParseIntOfPadded(DepartHour(i), rest);
  }

  /** Later slots depart strictly later, so the departure hours of a list are distinct. */
  lemma DepartHourIncreasing(i: nat, j: nat)
    requires i < j
    ensures DepartHour(i) < DepartHour(j)
  {
    assert (3 * j) / 2 >= (3 * i + 3) / 2;
  }

  lemma TenDepartHours()
    ensures seq(10, i requires 0 <= i => DepartHour(i)) == [6, 7, 9, 10, 12, 13, 15, 16, 18, 19]
  {
  }

  /** Every departure slot of a ten-offer list prints its hour with exactly two digits. */
  lemma DepartHourTwoDigits(i: nat)
    requires i < 10
    ensures |PadStart2(IntToString(DepartHour(i)))| == 2
  {
    var h := DepartHour(i);
    assert 6 <= h < 100;
    if h >= 10 {
      assert NatToString(h) == NatToString(h / 10) + [DigitChar(h % 10)];
    }
  }

  /** The arrival minute never exceeds 59 and is the departure minute plus the
      extra minutes, wrapped without carrying into the hour. */
  lemma ArrivalMinuteWraps(d: Draws)
    ensures 0 <= ArrivalMinute(d) < 60
    ensures var sum := RandomMinute(d.departMinute) + RandomBelow30(d.arriveExtra);
            ArrivalMinute(d) == if sum < 60 then sum else sum - 60
  {
  }

  /** The arrival hour is the departure hour plus the flight time modulo 24 when
      that sum is not negative, and a non-positive number above -24 otherwise. */
  lemma ArrivalHourRange(i: nat, flightTime: int)
    ensures -24 < ArrivalHour(i, flightTime) < 24
    ensures DepartHour(i) + flightTime >= 0 ==>
              ArrivalHour(i, flightTime) == (DepartHour(i) + flightTime) % 24
    ensures DepartHour(i) + flightTime < 0 ==> ArrivalHour(i, flightTime) <= 0
  {
  }

  /** A short route shows a negative arrival hour: base time 1 h and the lowest
      perturbation give flight time -29 h, so the first slot arrives at hour -23. */
  lemma NegativeArrivalHourExample()
    ensures FlightTime(1, Draws(0.0, 0.0, 0.0, 0.0, 0.0, 0.0, 0)) == -29
    ensures ArrivalHour(0, -29) == -23
  {
  }

  /** Two generated flight numbers coincide only for the same index. */
  lemma FlightNumberInjective(a: string, b: string, i: nat, j: nat)
    requires |a| >= 2 && |b| >= 2
    requires FlightNumber(a, i) == FlightNumber(b, j)
    ensures i == j
  {
    var pa := UpperAscii(Substring0(a, 2));
    var pb := UpperAscii(Substring0(b, 2));
    assert |pa| == 2 && |pb| == 2;
    assert IntToString(1000 + i) == FlightNumber(a, i)[2..];
    assert IntToString(1000 + j) == FlightNumber(b, j)[2..];
    IntToStringInjective(1000 + i, 1000 + j);
  }
}
