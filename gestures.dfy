/** MediaPipe hand landmarks: 21 points per detected hand, image coordinates
    normalised so that `y` grows downwards. The classifiers only compare `y`
    values, so real numbers stand in for the floats exactly, up to the rounding
    of `pip.y - 0.05` in the last dashboard's extended-finger test. */
module Landmarks {
  datatype Landmark = Landmark(x: real, y: real, z: real)

  const LANDMARK_COUNT := 21

  type Hand = h: seq<Landmark> | |h| == LANDMARK_COUNT
    witness seq(LANDMARK_COUNT, _ => Landmark(0.0, 0.0, 0.0))

  /** The four fingers the classifiers look at; the thumb is read separately. */
  datatype Finger = Index | Middle | Ring | Pinky

  const THUMB_TIP := 4

  /** A finger flag as it counts in `[...].filter(Boolean).length`. */
  function B2N(b: bool): nat { if b then 1 else 0 }

  /** Landmark of a fingertip. */
  function Tip(f: Finger): (k: nat)
    ensures k < LANDMARK_COUNT
  {
    match f
    case Index => 8
    case Middle => 12
    case Ring => 16
    case Pinky => 20
  }

  /** Landmark of the proximal interphalangeal (middle) joint. */
  function Pip(f: Finger): (k: nat)
    ensures k < LANDMARK_COUNT
  {
    match f
    case Index => 6
    case Middle => 10
    case Ring => 14
    case Pinky => 18
  }

  /** Landmark of the metacarpophalangeal (base) joint. */
  function Mcp(f: Finger): (k: nat)
    ensures k < LANDMARK_COUNT
  {
    match f
    case Index => 5
    case Middle => 9
    case Ring => 13
    case Pinky => 17
  }
}

/** The last dashboard's classifier: a finger is curled when its tip is below
    its middle joint and extended when the tip is more than 0.05 above it. */
module PipGestures {
  import opened Landmarks

  datatype Gesture = Peace | Point | Fist | Unknown

  const DEAD_BAND: real := 0.05

  /** `tip.y > pip.y` */
  predicate Curled(h: Hand, f: Finger)
  {
    h[Tip(f)].y > h[Pip(f)].y
  }

  /** `tip.y < pip.y - 0.05` */
  predicate Extended(h: Hand, f: Finger)
  {
    h[Tip(f)].y < h[Pip(f)].y - DEAD_BAND
  }

  /** `[indexCurled, ...].filter(Boolean).length` */
  function CurledCount(h: Hand): nat
  {
    B2N(Curled(h, Index)) + B2N(Curled(h, Middle)) + B2N(Curled(h, Ring)) + B2N(Curled(h, Pinky))
  }

  /** `detectGesture`; the three labels are exclusive, so each holds exactly
      when its own condition does, whatever the order of the checks. */
  function Detect(h: Hand): (g: Gesture)
    ensures g == Peace <==>
      Extended(h, Index) && Extended(h, Middle) && Curled(h, Ring) && Curled(h, Pinky)
    ensures g == Point <==>
      Extended(h, Index) && Curled(h, Middle) && Curled(h, Ring) && Curled(h, Pinky)
    ensures g == Fist <==>
      Curled(h, Index) && Curled(h, Middle) && Curled(h, Ring) && Curled(h, Pinky)
  {
    if Extended(h, Index) && Extended(h, Middle) && Curled(h, Ring) && Curled(h, Pinky) then Peace
    else if Extended(h, Index) && Curled(h, Middle) && Curled(h, Ring) && Curled(h, Pinky) then Point
    else if CurledCount(h) >= 4 then Fist
    else Unknown
  }

  /** No finger is both curled and extended. */
  lemma NeverCurledAndExtended(h: Hand, f: Finger)
    ensures !(Curled(h, f) && Extended(h, f))
  {
  }

  /** An index tip inside the dead band (at most 0.05 above its middle joint,
      not below it) is neither curled nor extended, and no label fits. */
  lemma DeadBandIsUnknown(h: Hand)
    requires h[Pip(Index)].y - DEAD_BAND <= h[Tip(Index)].y <= h[Pip(Index)].y
    ensures Detect(h) == Unknown
  {
  }
}

/** The first two dashboards' classifier: a finger is extended when its tip is
    above its base joint; the thumb is only compared with the index base. */
module McpGestures {
  import opened Landmarks

  datatype Gesture = Fist | Palm | ThumbsUp | Unknown

  /** `tip.y < base.y` */
  predicate Extended(h: Hand, f: Finger)
  {
    h[Tip(f)].y < h[Mcp(f)].y
  }

  /** `[indexExtended, ...].filter(Boolean).length` */
  function ExtendedCount(h: Hand): (n: nat)
    ensures n <= 4
  {
    B2N(Extended(h, Index)) + B2N(Extended(h, Middle)) + B2N(Extended(h, Ring)) + B2N(Extended(h, Pinky))
  }

  predicate ThumbAboveIndexBase(h: Hand)
  {
    h[THUMB_TIP].y < h[Mcp(Index)].y
  }

  /** `detectGesture`: fist with no finger up, palm with all four up, thumbs-up
      with the index up, the middle finger down and the thumb tip above the
      index base; the labels are exclusive, so each holds exactly when its own
      condition does. */
  function Detect(h: Hand): (g: Gesture)
    ensures g == Fist <==>
      !Extended(h, Index) && !Extended(h, Middle) && !Extended(h, Ring) && !Extended(h, Pinky)
    ensures g == Palm <==>
      Extended(h, Index) && Extended(h, Middle) && Extended(h, Ring) && Extended(h, Pinky)
    ensures g == ThumbsUp <==>
      Extended(h, Index) && !Extended(h, Middle) && ThumbAboveIndexBase(h)
  {
    var count := ExtendedCount(h);
    if count == 0 then Fist
    else if count == 4 then Palm
    else if Extended(h, Index) && !Extended(h, Middle) && ThumbAboveIndexBase(h) then ThumbsUp
    else Unknown
  }

  /** Two hands that agree on the `y` of landmarks 4, 5, 8, 9, 12, 13, 16, 17
      and 20. */
  predicate SameReadings(h1: Hand, h2: Hand)
  {
    && h1[THUMB_TIP].y == h2[THUMB_TIP].y
    && h1[Tip(Index)].y == h2[Tip(Index)].y && h1[Mcp(Index)].y == h2[Mcp(Index)].y
    && h1[Tip(Middle)].y == h2[Tip(Middle)].y && h1[Mcp(Middle)].y == h2[Mcp(Middle)].y
    && h1[Tip(Ring)].y == h2[Tip(Ring)].y && h1[Mcp(Ring)].y == h2[Mcp(Ring)].y
    && h1[Tip(Pinky)].y == h2[Tip(Pinky)].y && h1[Mcp(Pinky)].y == h2[Mcp(Pinky)].y
  }

  /** The label depends on those nine readings only. */
  lemma DetectReadsNineLandmarks(h1: Hand, h2: Hand)
    requires SameReadings(h1, h2)
    ensures Detect(h1) == Detect(h2)
  {
    assert Extended(h1, Index) == Extended(h2, Index);
    assert Extended(h1, Middle) == Extended(h2, Middle);
    assert Extended(h1, Ring) == Extended(h2, Ring);
    assert Extended(h1, Pinky) == Extended(h2, Pinky);
  }

  const SCROLL_STEP := 150

  /** The results list's `scrollTop` after `executeGesture`: fist scrolls down
      by 150, thumbs-up scrolls up by 150 but not past the top, and nothing
      moves when the page has no results container. */
  function ScrollAfter(g: Gesture, top: int, containerPresent: bool): (r: int)
    ensures top >= 0 ==> r >= 0
    ensures !containerPresent || g == Palm || g == Unknown ==> r == top
  {
    if !containerPresent then top
    else match g
      case Fist => top + SCROLL_STEP
      case ThumbsUp => if top - SCROLL_STEP > 0 then top - SCROLL_STEP else 0
      case _ => top
  }

  /** Thumbs-up undoes a fist; a fist undoes a thumbs-up only when that did
      not hit the top. */
  lemma ScrollRoundTrip(top: int)
    requires top >= 0
    ensures ScrollAfter(ThumbsUp, ScrollAfter(Fist, top, true), true) == top
    ensures ScrollAfter(Fist, ScrollAfter(ThumbsUp, top, true), true) == if top >= SCROLL_STEP then top else SCROLL_STEP
  {
  }
}
