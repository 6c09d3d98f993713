/** The main loop's state as an object: the globals it updates frame by
    frame (virtual_presenter.py:19-42) and one frame of gesture logic
    (virtual_presenter.py:65-179), proved against Presentation.Frame. */
module PresenterLoop {
  import opened Gestures
  import opened Presentation
  import PresentationProperties

  class Presenter {
    const totalSlides: nat
    var slide: int
    var annotations: seq<Stroke>
    var annotationNumber: nat
    var annotationStart: bool
    var counter: nat
    var buttonPressed: bool
    var previousGesture: Option<Gesture>
    var gestureCounter: nat
    var currentGesture: Option<Gesture>

    /** The fields as one state value. */
    function Snapshot(): (s: State)
      reads this
    {
      State(slide, annotations, annotationNumber, annotationStart, counter, buttonPressed,
            previousGesture, gestureCounter, currentGesture)
    }

    ghost predicate Valid()
      reads this
    {
      totalSlides >= 1 && Inv(Snapshot(), totalSlides)
    }

    /** Start-up: slide 0, one empty stroke, every counter at zero. */
    constructor (totalSlides: nat)
      requires totalSlides >= 1
      ensures Valid() && this.totalSlides == totalSlides
      ensures Snapshot() == Initial()
    {
      this.totalSlides := totalSlides;
      slide := 0;
      annotations := [[]];
      annotationNumber := 0;
      annotationStart := false;
      counter := 0;
      buttonPressed := false;
      previousGesture := None;
      gestureCounter := 0;
      currentGesture := None;
    }

    /** One frame from the raw gesture on: stabilize, dispatch, stop
        drawing, cool down. Returns false where the source raises its
        IndexError; the fields are then those at the point of failure. */
    method Step(raw: Option<Gesture>, pos: Point) returns (ok: bool)
      requires Valid()
      modifies this
      ensures ok == Frame(old(Snapshot()), totalSlides, raw, pos).Ok?
      ensures ok ==> Valid() && Snapshot() == Frame(old(Snapshot()), totalSlides, raw, pos).state
    {
      PresentationProperties.FramePreservesInv(Snapshot(), totalSlides, raw, pos);
      Confirm(raw);
      ok := Act(pos);
      if ok {
        if currentGesture != Some(Draw) {
          annotationStart := false;
        }
        CoolDown();
      }
    }

    /** The stabilizer: count the streak of the raw gesture and promote it
        to the stable gesture once the streak exceeds the threshold. */
    method Confirm(raw: Option<Gesture>)
      modifies this
      ensures Snapshot() == Stabilize(old(Snapshot()), raw)
    {
      if raw == previousGesture {
        gestureCounter := gestureCounter + 1;
      } else {
        gestureCounter := 0;
        previousGesture := raw;
      }
      currentGesture := None;
      if gestureCounter > HoldFrames {
        currentGesture := raw;
      }
    }

    /** The dispatcher: continuous actions first, then the single-trigger
        actions, which the closed gate skips. */
    method Act(pos: Point) returns (ok: bool)
      modifies this
      ensures ok == Dispatch(old(Snapshot()), totalSlides, pos).Ok?
      ensures ok ==> Snapshot() == Dispatch(old(Snapshot()), totalSlides, pos).state
    {
      ok := true;
      if currentGesture == Some(Pointer) {
        annotationStart := false;
      } else if currentGesture == Some(Draw) {
        ok := DrawStroke(pos);
      } else if !buttonPressed {
        if currentGesture == Some(Erase) {
          if annotations != [] {
            annotations := annotations[..|annotations| - 1];
            if annotationNumber > 0 {
              annotationNumber := annotationNumber - 1;
            }
            buttonPressed := true;
          }
          annotationStart := false;
        } else if currentGesture == Some(Next) {
          if slide < totalSlides - 1 {
            slide := slide + 1;
            annotations, annotationNumber, annotationStart := [[]], 0, false;
            buttonPressed := true;
          }
          annotationStart := false;
        } else if currentGesture == Some(Previous) {
          if slide > 0 {
            slide := slide - 1;
            annotations, annotationNumber, annotationStart := [[]], 0, false;
            buttonPressed := true;
          }
          annotationStart := false;
        }
      }
    }

    /** Draw: open a stroke if none is open, then append the fingertip to
        stroke annotationNumber; false where that index is out of range. */
    method DrawStroke(pos: Point) returns (ok: bool)
      modifies this
      ensures ok == DrawAction(old(Snapshot()), pos).Ok?
      ensures ok ==> Snapshot() == DrawAction(old(Snapshot()), pos).state
    {
      if !annotationStart {
        annotationStart := true;
        annotationNumber := annotationNumber + 1;
        annotations := annotations + [[]];
      }
      if annotationNumber >= |annotations| {
        return false;
      }
      annotations := annotations[annotationNumber := annotations[annotationNumber] + [pos]];
      ok := true;
    }

    /** The cooldown gate: count frames while closed, reopen past Delay. */
    method CoolDown()
      modifies this
      ensures Snapshot() == Cooldown(old(Snapshot()))
    {
      if buttonPressed {
        counter := counter + 1;
        if counter > Delay {
          counter := 0;
          buttonPressed := false;
        }
      }
    }

    /** One whole frame from the tracker's output: classify the fingers of a
        detected hand, look the vector up in the gesture table, then Step
        with the index fingertip. */
    method ProcessFrame(hand: Option<seq<Point>>) returns (ok: bool)
      requires Valid() && Trackable(hand)
      modifies this
      ensures ok == Frame(old(Snapshot()), totalSlides, RawGesture(hand), IndexTipOf(hand)).Ok?
      ensures ok ==> Valid() &&
                     Snapshot() == Frame(old(Snapshot()), totalSlides, RawGesture(hand), IndexTipOf(hand)).state
    {
      var raw: Option<Gesture> := None;
      var pos := Point(0, 0);
      if hand.Some? && |hand.value| != 0 {
        var fingers := ComputeFingers(hand.value);
        pos := hand.value[IndexTip];
        raw := MapGesture(fingers);
      }
      ok := Step(raw, pos);
    }
  }
}
