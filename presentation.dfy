/** The presentation state machine of one frame (virtual_presenter.py:113-179)
    as functions on a state value: the gesture stabilizer, the action
    dispatcher, the "stop drawing" rule and the cooldown gate. */
module Presentation {
  import opened Gestures

  /** Frames a raw gesture must persist beyond before it is confirmed. */
  const HoldFrames: nat := 5

  /** Frames the cooldown gate stays closed after a single-trigger action. */
  const Delay: nat := 30

  /** One freehand path, in drawing order. */
  type Stroke = seq<Point>

  /** The loop's module-level state, field by field. */
  datatype State = State(
    slide: int,                          // current slide index
    annotations: seq<Stroke>,            // strokes on the current slide
    annotationNumber: nat,               // index of the stroke being drawn
    annotationStart: bool,               // a stroke is open
    counter: nat,                        // cooldown frame counter
    buttonPressed: bool,                 // cooldown gate closed
    previousGesture: Option<Gesture>,    // last frame's raw gesture
    gestureCounter: nat,                 // frames the raw gesture persisted
    currentGesture: Option<Gesture>)     // this frame's stable gesture

  /** The result of a frame: the new state, or the IndexError the source
      raises when Draw writes to a stroke that does not exist. */
  datatype Outcome = Ok(state: State) | IndexError

  /** The state before the first frame: slide 0, one empty stroke, all
      counters zero. */
  function Initial(): (r: State)
  {
    State(0, [[]], 0, false, 0, false, None, 0, None)
  }

  /** The state every frame of a run keeps when it completes: the slide is in
      range, annotationNumber is the index of the last stroke (0 once the list
      is empty), an open stroke exists only under a stable Draw, the cooldown
      counter runs only while the gate is closed, and the stable gesture is
      the last raw one exactly when its streak exceeds the hold threshold. */
  predicate Inv(s: State, total: int)
  {
    && 0 <= s.slide < total
    && s.annotationNumber == (if s.annotations == [] then 0 else |s.annotations| - 1)
    && (s.annotationStart ==> s.annotations != [] && s.currentGesture == Some(Draw))
    && (s.buttonPressed ==> 1 <= s.counter <= Delay)
    && (!s.buttonPressed ==> s.counter == 0)
    && s.currentGesture == (if s.gestureCounter > HoldFrames then s.previousGesture else None)
  }

  /** The stabilizer. The streak counter grows while the raw gesture repeats
      and resets exactly when it changes; the stable gesture is this frame's
      raw gesture once the streak exceeds the threshold, and none before. */
  function Stabilize(s: State, raw: Option<Gesture>): (r: State)
    ensures r.previousGesture == raw
    ensures r.gestureCounter == 0 <==> raw != s.previousGesture
    ensures raw == s.previousGesture ==> r.gestureCounter == s.gestureCounter + 1
    ensures r.currentGesture == None || r.currentGesture == raw
    ensures r.currentGesture != None ==> r.gestureCounter > HoldFrames
    ensures r.gestureCounter > HoldFrames ==> r.currentGesture == raw
    ensures r == s.(previousGesture := raw, gestureCounter := r.gestureCounter,
                    currentGesture := r.currentGesture)
  {
    var s1 :=
      if raw == s.previousGesture then s.(gestureCounter := s.gestureCounter + 1)
      else s.(gestureCounter := 0, previousGesture := raw);
    s1.(currentGesture := if s1.gestureCounter > HoldFrames then raw else None)
  }

  /** Draw: open a new stroke unless one is open, then append the fingertip
      to stroke annotationNumber, which fails when that index is past the
      end of the list. */
  function DrawAction(s: State, pos: Point): (o: Outcome)
  {
    var s1 :=
      if !s.annotationStart then
        s.(annotationStart := true, annotationNumber := s.annotationNumber + 1,
           annotations := s.annotations + [[]])
      else s;
    if s1.annotationNumber < |s1.annotations| then
      Ok(s1.(annotations := s1.annotations[s1.annotationNumber :=
                              s1.annotations[s1.annotationNumber] + [pos]]))
    else IndexError
  }

  /** Erase: pop the last stroke if there is one, step annotationNumber back
      unless it is 0, and close the gate; in every case close the stroke. */
  function EraseAction(s: State): (r: State)
  {
    var s1 :=
      if s.annotations != [] then
        s.(annotations := s.annotations[..|s.annotations| - 1],
           annotationNumber :=
             if s.annotationNumber > 0 then s.annotationNumber - 1 else s.annotationNumber,
           buttonPressed := true)
      else s;
    s1.(annotationStart := false)
  }

  /** The reset that goes with every slide change: one empty stroke. */
  function ClearSlide(s: State, slide: int): (r: State)
  {
    s.(slide := slide, annotations := [[]], annotationNumber := 0,
       annotationStart := false, buttonPressed := true)
  }

  /** Next: move on unless at the last slide. */
  function NextAction(s: State, total: int): (r: State)
  {
    var s1 := if s.slide < total - 1 then ClearSlide(s, s.slide + 1) else s;
    s1.(annotationStart := false)
  }

  /** Previous: move back unless at slide 0. */
  function PreviousAction(s: State): (r: State)
  {
    var s1 := if s.slide > 0 then ClearSlide(s, s.slide - 1) else s;
    s1.(annotationStart := false)
  }

  /** The dispatcher on the stable gesture: Pointer and Draw are continuous
      and ignore the gate; Erase, Next and Previous act only while the gate
      is open. */
  function Dispatch(s: State, total: int, pos: Point): (o: Outcome)
  {
    match s.currentGesture
    case Some(Pointer) => Ok(s.(annotationStart := false))
    case Some(Draw) => DrawAction(s, pos)
    case _ =>
      if s.buttonPressed then Ok(s)
      else match s.currentGesture
        case Some(Erase) => Ok(EraseAction(s))
        case Some(Next) => Ok(NextAction(s, total))
        case Some(Previous) => Ok(PreviousAction(s))
        case _ => Ok(s)
  }

  /** Any stable gesture other than Draw closes the open stroke. */
  function StopDrawing(s: State): (r: State)
  {
    if s.currentGesture != Some(Draw) then s.(annotationStart := false) else s
  }

  /** The cooldown gate: while closed, count frames; reopen, with the
      counter back at 0, on the frame the count exceeds Delay. */
  function Cooldown(s: State): (r: State)
    ensures r == s.(counter := r.counter, buttonPressed := r.buttonPressed)
    ensures !s.buttonPressed ==> r == s
    ensures s.buttonPressed && s.counter < Delay ==>
              r.buttonPressed && r.counter == s.counter + 1
    ensures s.buttonPressed && s.counter >= Delay ==> !r.buttonPressed && r.counter == 0
  {
    if s.buttonPressed then
      var c := s.counter + 1;
      if c > Delay then s.(counter := 0, buttonPressed := false) else s.(counter := c)
    else s
  }

  /** One whole frame: stabilize the raw gesture, dispatch on the stable
      one, stop drawing unless it is Draw, then run the cooldown gate. */
  function Frame(s: State, total: int, raw: Option<Gesture>, pos: Point): (o: Outcome)
    ensures o.Ok? ==> o.state.currentGesture == Stabilize(s, raw).currentGesture
    ensures o.Ok? && o.state.currentGesture != Some(Draw) ==> !o.state.annotationStart
    ensures o.IndexError? ==> Stabilize(s, raw).currentGesture == Some(Draw)
  {
    match Dispatch(Stabilize(s, raw), total, pos)
    case IndexError => IndexError
    case Ok(s2) => Ok(Cooldown(StopDrawing(s2)))
  }

  /** Whether this frame executes a single-trigger action: the gate is open
      and the stable gesture is an Erase with a stroke to remove, or a Next
      or Previous with a slide to move to. */
  predicate Fires(s: State, total: int, raw: Option<Gesture>)
  {
    var t := Stabilize(s, raw);
    && !t.buttonPressed
    && match t.currentGesture
       case Some(Erase) => t.annotations != []
       case Some(Next) => t.slide < total - 1
       case Some(Previous) => t.slide > 0
       case _ => false
  }

  /** One frame's input: the raw gesture and the index fingertip. */
  datatype Input = Input(raw: Option<Gesture>, pos: Point)

  /** Frames run one after another; the first IndexError ends the run. */
  function Run(s: State, total: int, ins: seq<Input>): (o: Outcome)
    decreases |ins|
  {
    if ins == [] then Ok(s)
    else match Frame(s, total, ins[0].raw, ins[0].pos)
      case IndexError => IndexError
      case Ok(s1) => Run(s1, total, ins[1..])
  }

  /** How many single-trigger actions a run executes before it ends. */
  function FireCount(s: State, total: int, ins: seq<Input>): (n: nat)
    decreases |ins|
  {
    if ins == [] then 0
    else match Frame(s, total, ins[0].raw, ins[0].pos)
      case IndexError => 0
      case Ok(s1) =>
        (if Fires(s, total, ins[0].raw) then 1 else 0) + FireCount(s1, total, ins[1..])
  }
}
