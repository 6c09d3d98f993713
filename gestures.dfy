/** Per-frame gesture recognition: the finger-state classifier that turns a
    hand's landmarks into a 0/1 vector, and the exact-match table that turns
    that vector into a raw gesture (virtual_presenter.py:79-110). */
module Gestures {

  datatype Option<T> = None | Some(value: T)

  /** A landmark in frame-pixel coordinates; y grows downward. The landmark's
      id is its position in the list. */
  datatype Point = Point(x: int, y: int)

  datatype Gesture = Pointer | Draw | Erase | Next | Previous

  type Bit = b: int | 0 <= b <= 1

  /** The hand tracker reports 21 landmarks for a detected hand. */
  const NumLandmarks: nat := 21

  /** Landmark ids of the thumb, index, middle, ring and pinky tips. */
  const TipIds: seq<nat> := [4, 8, 12, 16, 20]

  /** Landmark id of the index fingertip, the pointer and pen position. */
  const IndexTip: nat := 8

  /** What the tracker may hand over for one frame: no hand, or a landmark
      list long enough for every id the classifier reads. The empty list is
      tolerated, as the code tests for it. */
  predicate Trackable(hand: Option<seq<Point>>)
  {
    hand.Some? ==> |hand.value| == 0 || |hand.value| >= NumLandmarks
  }

  /** Whether finger f (0 = thumb, ..., 4 = pinky) counts as extended. The
      thumb compares x against the joint below its tip (right-hand
      convention); the other fingers are extended when the tip lies higher
      in the frame than the joint two landmarks below it. */
  function FingerUp(lm: seq<Point>, f: nat): (b: Bit)
    requires |lm| >= NumLandmarks && f < 5
  {
    if f == 0 then
      (if lm[TipIds[0]].x > lm[TipIds[0] - 1].x then 1 else 0)
    else
      assert TipIds[f] in TipIds;
      (if lm[TipIds[f]].y < lm[TipIds[f] - 2].y then 1 else 0)
  }

  /** The finger vector as a value: thumb, index, middle, ring, pinky. */
  function Fingers(lm: seq<Point>): (r: seq<Bit>)
    requires |lm| >= NumLandmarks
    ensures |r| == 5
  {
    seq(5, f requires 0 <= f < 5 => FingerUp(lm, f))
  }

  /** The classifier as the source runs it: the thumb first, then a loop
      over the four other fingers, appending one bit each. */
  method ComputeFingers(lm: seq<Point>) returns (fingers: seq<Bit>)
    requires |lm| >= NumLandmarks
    ensures |fingers| == 5
    ensures fingers[0] == 1 <==> lm[4].x > lm[3].x
    ensures forall f :: 1 <= f < 5 ==>
              (fingers[f] == 1 <==> lm[TipIds[f]].y < lm[TipIds[f] - 2].y)
    ensures fingers == Fingers(lm)
  {
    fingers := [];
    if lm[TipIds[0]].x > lm[TipIds[0] - 1].x {
      fingers := fingers + [1];
    } else {
      fingers := fingers + [0];
    }
    for id := 1 to 5
      invariant |fingers| == id
      invariant forall f :: 0 <= f < id ==> fingers[f] == FingerUp(lm, f)
    {
      assert TipIds[id] in TipIds;
      if lm[TipIds[id]].y < lm[TipIds[id] - 2].y {
        fingers := fingers + [1];
      } else {
        fingers := fingers + [0];
      }
    }
  }

  /** The finger vector that each gesture is recognised by. */
  function Pattern(g: Gesture): (r: seq<Bit>)
    ensures |r| == 5
  {
    match g
    case Pointer => [0, 1, 1, 0, 0]   // index and middle
    case Draw => [0, 1, 0, 0, 0]      // index only
    case Erase => [0, 1, 1, 1, 0]     // index, middle and ring
    case Next => [1, 0, 0, 0, 0]      // thumb only
    case Previous => [0, 0, 0, 0, 1]  // pinky only
  }

  /** The gesture table: a closed-world exact match. A vector names gesture g
      exactly when it is g's pattern; every other vector gives no gesture. */
  function MapGesture(fingers: seq<Bit>): (r: Option<Gesture>)
    ensures forall g :: r == Some(g) <==> fingers == Pattern(g)
    ensures r == None <==> forall g :: fingers != Pattern(g)
  {
    if fingers == [0, 1, 1, 0, 0] then Some(Pointer)
    else if fingers == [0, 1, 0, 0, 0] then Some(Draw)
    else if fingers == [0, 1, 1, 1, 0] then Some(Erase)
    else if fingers == [1, 0, 0, 0, 0] then Some(Next)
    else if fingers == [0, 0, 0, 0, 1] then Some(Previous)
    else None
  }

  /** The raw gesture of one frame: none without a hand (or with an empty
      landmark list), otherwise the table applied to the finger vector. */
  function RawGesture(hand: Option<seq<Point>>): (r: Option<Gesture>)
    requires Trackable(hand)
    ensures r.Some? ==> hand.Some? && |hand.value| >= NumLandmarks
  {
    if hand.None? || |hand.value| == 0 then None
    else MapGesture(Fingers(hand.value))
  }

  /** Where the pointer and the pen are: the index fingertip of this frame's
      hand. Without a hand the source keeps a stale value that no action
      reads (see PresentationProperties.PositionOnlyMattersForDraw); the
      origin stands in for it. */
  function IndexTipOf(hand: Option<seq<Point>>): (p: Point)
    requires Trackable(hand)
  {
    if hand.None? || |hand.value| == 0 then Point(0, 0) else hand.value[IndexTip]
  }

  /** A hand shows gesture g exactly when every finger's extension agrees
      with g's pattern. */
  lemma RawGestureGeometry(lm: seq<Point>, g: Gesture)
    requires |lm| >= NumLandmarks
    ensures RawGesture(Some(lm)) == Some(g) <==>
            forall f :: 0 <= f < 5 ==> FingerUp(lm, f) == Pattern(g)[f]
  {
  }
}
