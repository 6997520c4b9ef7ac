/** `handleGesture`'s debounce: a recognised label is acted on when it differs
    from the last one acted on, or when more than 350 ms have passed since
    then; acting records the label and the time. `unknown` (here `None`) is
    never acted on and leaves the record alone. */
module Debounce {
  import opened Wrappers

  const GESTURE_DEBOUNCE_MS := 350

  /** `lastGesture` (`null` at start) and `lastGestureTime` (0 at start). */
  datatype Tracker<G> = Tracker(last: Option<G>, lastTime: int)

  /** `gesture !== state.lastGesture || now - state.lastGestureTime > CONFIG.gestureDebounce` */
  predicate Accepts<G(==)>(t: Tracker<G>, g: G, now: int)
  {
    t.last != Some(g) || now - t.lastTime > GESTURE_DEBOUNCE_MS
  }

  /** `if (gesture === 'unknown') return;`: the classifier's `unknown` label
      is no gesture, and every other label stands for itself. */
  function Recognised<G(==)>(g: G, unknown: G): (r: Option<G>)
    ensures r == None <==> g == unknown
    ensures r.Some? ==> r.value == g
  {
    if g == unknown then None else Some(g)
  }

  /** One call of `handleGesture`: the new record and whether the gesture was
      executed. */
  function Step<G(==)>(t: Tracker<G>, g: Option<G>, now: int): (r: (Tracker<G>, bool))
    ensures r.1 <==> g.Some? && (t.last != Some(g.value) || now - t.lastTime > GESTURE_DEBOUNCE_MS)
    ensures r.1 ==> r.0 == Tracker(g, now)
    ensures !r.1 ==> r.0 == t
  {
    match g
    case None => (t, false)
    case Some(gesture) => if Accepts(t, gesture, now) then (Tracker(g, now), true) else (t, false)
  }

  /** The gestures executed over a sequence of `(label, time)` calls, with their times. */
  function Executed<G(==)>(t: Tracker<G>, calls: seq<(Option<G>, int)>): seq<(G, int)>
    decreases |calls|
  {
    if calls == [] then []
    else
      var (t', fired) := Step(t, calls[0].0, calls[0].1);
      (if fired then [(calls[0].0.value, calls[0].1)] else []) + Executed(t', calls[1..])
  }

  /** The record after a sequence of calls. */
  function Final<G(==)>(t: Tracker<G>, calls: seq<(Option<G>, int)>): Tracker<G>
    decreases |calls|
  {
    if calls == [] then t else Final(Step(t, calls[0].0, calls[0].1).0, calls[1..])
  }

  /** The record always names the last gesture executed and its time. */
  lemma {:induction false} FinalIsLastExecuted<G>(t: Tracker<G>, calls: seq<(Option<G>, int)>)
    ensures var e := Executed(t, calls);
      Final(t, calls) == if e == [] then t else Tracker(Some(e[|e| - 1].0), e[|e| - 1].1)
    decreases |calls|
  {
    if calls != [] {
      FinalIsLastExecuted(Step(t, calls[0].0, calls[0].1).0, calls[1..]);
    }
  }

  /** The same gesture is never executed twice in a row within 350 ms, however
      the calls interleave with other gestures' unrecognised frames; the first
      execution also keeps that distance from the record it started from. */
  lemma {:induction false} RepeatsAreSpaced<G>(t: Tracker<G>, calls: seq<(Option<G>, int)>)
    ensures var e := Executed(t, calls);
      && (e != [] && t.last == Some(e[0].0) ==> e[0].1 - t.lastTime > GESTURE_DEBOUNCE_MS)
      && forall k :: 0 <= k < |e| - 1 && e[k].0 == e[k + 1].0 ==> e[k + 1].1 - e[k].1 > GESTURE_DEBOUNCE_MS
    decreases |calls|
  {
    if calls != [] {
      var (t', fired) := Step(t, calls[0].0, calls[0].1);
      var rest := Executed(t', calls[1..]);
      RepeatsAreSpaced(t', calls[1..]);
      var e := Executed(t, calls);
      if fired {
        assert e == [(calls[0].0.value, calls[0].1)] + rest;
        forall k | 0 <= k < |e| - 1 && e[k].0 == e[k + 1].0
          ensures e[k + 1].1 - e[k].1 > GESTURE_DEBOUNCE_MS
        {
          if k > 0 {
            assert e[k] == rest[k - 1] && e[k + 1] == rest[k];
          }
        }
      } else {
        assert e == rest;
      }
    }
  }
}
