/** Properties of the per-frame state machine: the invariant every frame
    keeps, the one frame that fails, the stabilizer's hold delay, stroke
    growth under Draw, slide navigation and erasing, and the cooldown gate's
    "at most one single-trigger action per Delay + 1 frames". */
module PresentationProperties {
  import opened Gestures
  import opened Presentation

  // ---------------------------------------------------------------------
  // The invariant and the one failing frame

  lemma InitialInv(total: int)
    requires total >= 1
    ensures Inv(Initial(), total)
  {
  }

  /** Every frame that completes keeps the invariant. */
  lemma FramePreservesInv(s: State, total: int, raw: Option<Gesture>, pos: Point)
    requires Inv(s, total)
    ensures Frame(s, total, raw, pos).Ok? ==> Inv(Frame(s, total, raw, pos).state, total)
  {
  }

  /** A frame fails exactly when the stable gesture is Draw, no stroke is
      open and the annotation list is empty: the new stroke is then index 0
      while annotationNumber has become 1. */
  lemma FaultIff(s: State, total: int, raw: Option<Gesture>, pos: Point)
    requires Inv(s, total)
    ensures Frame(s, total, raw, pos) == IndexError <==>
            Stabilize(s, raw).currentGesture == Some(Draw) && !s.annotationStart &&
            s.annotations == []
  {
  }

  /** Running the inputs of a + b is running a, then b from where a ended. */
  lemma {:induction false} RunAppend(s: State, total: int, a: seq<Input>, b: seq<Input>)
    ensures Run(s, total, a + b) ==
            match Run(s, total, a)
            case IndexError => IndexError
            case Ok(s1) => Run(s1, total, b)
    decreases |a|
  {
    if a == [] {
      assert a + b == b;
    } else {
      assert (a + b)[0] == a[0];
      assert (a + b)[1..] == a[1..] + b;
      match Frame(s, total, a[0].raw, a[0].pos)
      case IndexError =>
      case Ok(s1) => RunAppend(s1, total, a[1..], b);
    }
  }

  /** k frames with the same input. */
  function Repeat(i: Input, k: nat): (r: seq<Input>)
    ensures |r| == k && forall j :: 0 <= j < k ==> r[j] == i
  {
    seq(k, _ => i)
  }

  /** Seven Erase frames from the start confirm Erase, which pops the only
      stroke; seven Draw frames then confirm Draw, which appends a stroke at
      index 0 and writes to index 1. */
  lemma EraseThenDrawFails(total: int, p: Point)
    requires total >= 1
    ensures Run(Initial(), total,
                Repeat(Input(Some(Erase), p), HoldFrames + 2) +
                Repeat(Input(Some(Draw), p), HoldFrames + 2)) == IndexError
  {
    var e := Input(Some(Erase), p);
    var d := Input(Some(Draw), p);
    RunAppend(Initial(), total, Repeat(e, HoldFrames + 2), Repeat(d, HoldFrames + 2));
    var s0 := Initial();
    // the Erase frames: the streak climbs to 6 and the seventh fires
    var s6 := s0.(previousGesture := Some(Erase), gestureCounter := HoldFrames);
    RunSameGesture(s0, total, e, HoldFrames + 1);
    var s7 := s6.(annotations := [], gestureCounter := HoldFrames + 1,
                  currentGesture := Some(Erase), buttonPressed := true, counter := 1);
    assert Frame(s6, total, e.raw, p) == Ok(s7);
    RunAppend(s0, total, Repeat(e, HoldFrames + 1), [e]);
    assert Repeat(e, HoldFrames + 1) + [e] == Repeat(e, HoldFrames + 2);
    assert Run(s6, total, [e]) == Ok(s7);
    // the Draw frames: six frames of building up the streak, then the fault
    RunSameGesture(s7, total, d, HoldFrames + 1);
    var t6 := Run(s7, total, Repeat(d, HoldFrames + 1)).state;
    assert t6.previousGesture == Some(Draw) && t6.gestureCounter == HoldFrames;
    assert t6.annotations == [] && !t6.annotationStart;
    RunAppend(s7, total, Repeat(d, HoldFrames + 1), [d]);
    assert Repeat(d, HoldFrames + 1) + [d] == Repeat(d, HoldFrames + 2);
    FaultIff(t6, total, d.raw, p);
  }

  /** Frames whose raw gesture is never confirmed (the streak stays at or
      below the threshold) change nothing but the streak and the cooldown.
      Used to walk a run up to the frame that confirms. */
  lemma {:induction false} RunSameGesture(s: State, total: int, i: Input, k: nat)
    requires Inv(s, total)
    requires i.raw != s.previousGesture ==> k <= HoldFrames + 1
    requires i.raw == s.previousGesture ==> s.gestureCounter + k <= HoldFrames
    ensures var o := Run(s, total, Repeat(i, k));
            && o.Ok? && Inv(o.state, total)
            && o.state.slide == s.slide
            && o.state.annotations == s.annotations
            && o.state.annotationNumber == s.annotationNumber
            && (k > 0 ==> !o.state.annotationStart && o.state.previousGesture == i.raw && o.state.currentGesture == None)
            && (k > 0 ==> o.state.gestureCounter ==
                            if i.raw == s.previousGesture then s.gestureCounter + k else k - 1)
            && (!s.buttonPressed ==> !o.state.buttonPressed)
    decreases k
  {
    if k > 0 {
      var t := Stabilize(s, i.raw);
      assert t.currentGesture == None;
      var s1 := Frame(s, total, i.raw, i.pos).state;
      FramePreservesInv(s, total, i.raw, i.pos);
      assert Repeat(i, k)[0] == i && Repeat(i, k)[1..] == Repeat(i, k - 1);
      RunSameGesture(s1, total, i, k - 1);
    }
  }

  /** The fingertip only matters on a frame whose raw gesture is Draw: every
      other frame ends the same whatever position it is given. */
  lemma PositionOnlyMattersForDraw(s: State, total: int, raw: Option<Gesture>, p: Point, q: Point)
    requires raw != Some(Draw)
    ensures Frame(s, total, raw, p) == Frame(s, total, raw, q)
  {
  }

  // ---------------------------------------------------------------------
  // The stabilizer over many frames

  /** The stabilizer alone, fed a sequence of raw gestures. */
  function StabilizeAll(s: State, raws: seq<Option<Gesture>>): (r: State)
    decreases |raws|
  {
    if raws == [] then s else StabilizeAll(Stabilize(s, raws[0]), raws[1..])
  }

  /** After k copies of one raw gesture g the streak counts from the last
      change: it continues the old streak when g was already the previous
      raw gesture, and starts at 0 on the first copy otherwise. The stable
      gesture is g exactly when that streak exceeds the threshold. */
  lemma {:induction false} HoldRun(s: State, g: Option<Gesture>, k: nat)
    requires k >= 1
    ensures var r := StabilizeAll(s, seq(k, _ => g));
            && r.previousGesture == g
            && r.gestureCounter == (if s.previousGesture == g then s.gestureCounter + k else k - 1)
            && r.currentGesture == (if r.gestureCounter > HoldFrames then g else None)
    decreases k
  {
    var gs := seq(k, _ => g);
    assert gs[0] == g && gs[1..] == seq(k - 1, _ => g);
    if k > 1 {
      HoldRun(Stabilize(s, g), g, k - 1);
    }
  }

  /** A new raw gesture is confirmed on its (HoldFrames + 2)-th consecutive
      frame and not before: held for HoldFrames + 1 frames it stays
      unconfirmed throughout. */
  lemma ConfirmationFrame(s: State, g: Gesture, k: nat)
    requires s.previousGesture != Some(g) && k >= 1
    ensures StabilizeAll(s, seq(k, _ => Some(g))).currentGesture == Some(g) <==> k >= HoldFrames + 2
    ensures StabilizeAll(s, seq(k, _ => Some(g))).currentGesture != Some(g) ==>
            StabilizeAll(s, seq(k, _ => Some(g))).currentGesture == None
  {
    HoldRun(s, Some(g), k);
  }

  /** Confirmation never resets the streak: once g is the stable gesture,
      every further frame of g keeps it stable. */
  lemma StaysConfirmed(s: State, total: int, g: Gesture, k: nat)
    requires Inv(s, total) && s.currentGesture == Some(g) && k >= 1
    ensures StabilizeAll(s, seq(k, _ => Some(g))).currentGesture == Some(g)
  {
    HoldRun(s, Some(g), k);
  }

  /** The raw gestures of a run of frames. */
  function Raws(ins: seq<Input>): (r: seq<Option<Gesture>>)
    ensures |r| == |ins| && forall j :: 0 <= j < |ins| ==> r[j] == ins[j].raw
  {
    seq(|ins|, j requires 0 <= j < |ins| => ins[j].raw)
  }

  /** Two states agree on the stabilizer's fields. */
  predicate SameStabilizer(a: State, b: State)
  {
    && a.previousGesture == b.previousGesture
    && a.gestureCounter == b.gestureCounter
    && a.currentGesture == b.currentGesture
  }

  /** Dispatch, the stop-drawing rule and the gate leave the stabilizer's
      fields as the stabilizer set them. */
  lemma FrameStabilizerFields(s: State, total: int, raw: Option<Gesture>, pos: Point)
    requires Frame(s, total, raw, pos).Ok?
    ensures SameStabilizer(Frame(s, total, raw, pos).state, Stabilize(s, raw))
  {
  }

  /** Whole frames follow the stabilizer run alone: after a run that does
      not fail, the previous gesture, the streak and the stable gesture are
      those of StabilizeAll on the run's raw gestures, from any state that
      agrees with the start on those fields. */
  lemma {:induction false} RunFollowsStabilizer(s: State, b: State, total: int, ins: seq<Input>)
    requires SameStabilizer(s, b)
    requires Run(s, total, ins).Ok?
    ensures SameStabilizer(Run(s, total, ins).state, StabilizeAll(b, Raws(ins)))
    decreases |ins|
  {
    if ins != [] {
      var s1 := Frame(s, total, ins[0].raw, ins[0].pos).state;
      FrameStabilizerFields(s, total, ins[0].raw, ins[0].pos);
      assert Raws(ins)[0] == ins[0].raw && Raws(ins)[1..] == Raws(ins[1..]);
      RunFollowsStabilizer(s1, Stabilize(b, ins[0].raw), total, ins[1..]);
    }
  }

  /** ConfirmationFrame for whole frames: k frames showing a new gesture g
      end with g stable exactly when k >= HoldFrames + 2, and with no stable
      gesture otherwise. */
  lemma RunConfirmationFrame(s: State, total: int, g: Gesture, p: Point, k: nat)
    requires s.previousGesture != Some(g) && k >= 1
    requires Run(s, total, Repeat(Input(Some(g), p), k)).Ok?
    ensures var t := Run(s, total, Repeat(Input(Some(g), p), k)).state;
            && (t.currentGesture == Some(g) <==> k >= HoldFrames + 2)
            && (t.currentGesture != Some(g) ==> t.currentGesture == None)
  {
    var ins := Repeat(Input(Some(g), p), k);
    RunFollowsStabilizer(s, s, total, ins);
    assert Raws(ins) == seq(k, _ => Some(g));
    ConfirmationFrame(s, g, k);
  }

  /** StaysConfirmed for whole frames: once g is stable, every further frame
      showing g ends with g still stable. */
  lemma RunStaysConfirmed(s: State, total: int, g: Gesture, p: Point, k: nat)
    requires Inv(s, total) && s.currentGesture == Some(g) && k >= 1
    requires Run(s, total, Repeat(Input(Some(g), p), k)).Ok?
    ensures Run(s, total, Repeat(Input(Some(g), p), k)).state.currentGesture == Some(g)
  {
    var ins := Repeat(Input(Some(g), p), k);
    RunFollowsStabilizer(s, s, total, ins);
    assert Raws(ins) == seq(k, _ => Some(g));
    StaysConfirmed(s, total, g, k);
  }

  // ---------------------------------------------------------------------
  // Drawing

  /** Frames of raw Draw at the given points. */
  function DrawInputs(pts: seq<Point>): (r: seq<Input>)
    ensures |r| == |pts| && forall j :: 0 <= j < |pts| ==> r[j] == Input(Some(Draw), pts[j])
  {
    seq(|pts|, j requires 0 <= j < |pts| => Input(Some(Draw), pts[j]))
  }

  /** While a stroke is open, each Draw frame appends its point to that
      stroke, the last one, and no other stroke changes. */
  lemma {:induction false} DrawContinues(s: State, total: int, pts: seq<Point>)
    requires Inv(s, total) && s.annotationStart
    ensures var o := Run(s, total, DrawInputs(pts));
            && o.Ok? && Inv(o.state, total)
            && o.state.annotationStart
            && o.state.slide == s.slide
            && o.state.annotationNumber == s.annotationNumber
            && o.state.annotations ==
                 s.annotations[..|s.annotations| - 1] + [s.annotations[|s.annotations| - 1] + pts]
    decreases |pts|
  {
    var n := |s.annotations| - 1;
    if pts == [] {
      assert DrawInputs(pts) == [];
      assert s.annotations[n] + pts == s.annotations[n];
      assert s.annotations == s.annotations[..n] + [s.annotations[n]];
    } else {
      var i := Input(Some(Draw), pts[0]);
      var s1 := Frame(s, total, i.raw, i.pos).state;
      assert s1.annotations == s.annotations[n := s.annotations[n] + [pts[0]]];
      FramePreservesInv(s, total, i.raw, i.pos);
      assert DrawInputs(pts)[0] == i && DrawInputs(pts)[1..] == DrawInputs(pts[1..]);
      DrawContinues(s1, total, pts[1..]);
      assert s1.annotations[..n] == s.annotations[..n];
      assert s1.annotations[n] + pts[1..] == s.annotations[n] + pts;
    }
  }

  /** A run of stable-Draw frames that starts with no stroke open opens
      exactly one new stroke: annotationNumber grows by one, the new last
      stroke holds the run's points in order, and every earlier stroke is
      unchanged. */
  lemma DrawRun(s: State, total: int, pts: seq<Point>)
    requires Inv(s, total) && !s.annotationStart && s.annotations != []
    requires s.previousGesture == Some(Draw) && s.gestureCounter >= HoldFrames
    requires pts != []
    ensures var o := Run(s, total, DrawInputs(pts));
            && o.Ok?
            && o.state.annotationNumber == s.annotationNumber + 1
            && o.state.annotations == s.annotations + [pts]
            && o.state.annotationStart
            && o.state.slide == s.slide
  {
    var i := Input(Some(Draw), pts[0]);
    var t := Stabilize(s, i.raw);
    assert t.currentGesture == Some(Draw) && t.annotations == s.annotations;
    var withStroke := t.(annotationStart := true, annotationNumber := t.annotationNumber + 1,
                     annotations := t.annotations + [[]]);
    assert !t.annotationStart && t.annotationNumber == |s.annotations| - 1;
    assert withStroke.annotationNumber == |s.annotations| < |withStroke.annotations|;
    assert withStroke.annotations[|s.annotations|] + [pts[0]] == [pts[0]];
    assert DrawAction(t, i.pos) ==
           Ok(withStroke.(annotations := withStroke.annotations[|s.annotations| := [pts[0]]]));
    var s1 := Frame(s, total, i.raw, i.pos).state;
    assert s1.annotations == s.annotations + [[pts[0]]];
    FramePreservesInv(s, total, i.raw, i.pos);
    assert DrawInputs(pts)[0] == i && DrawInputs(pts)[1..] == DrawInputs(pts[1..]);
    assert Run(s, total, DrawInputs(pts)) == Run(s1, total, DrawInputs(pts[1..]));
    DrawContinues(s1, total, pts[1..]);
    assert s1.annotations[..|s1.annotations| - 1] == s.annotations;
    assert s1.annotations[|s1.annotations| - 1] + pts[1..] == pts;
  }

  // ---------------------------------------------------------------------
  // Erasing and navigating

  /** A confirmed Erase with the gate open and a stroke to remove removes
      exactly the last stroke, steps annotationNumber back only when it was
      above 0, and closes the gate. With no stroke, or with the gate closed,
      the strokes are untouched and the gate is not closed by this frame.
      The slide never changes, and no stroke is left open. */
  lemma EraseFrame(s: State, total: int, raw: Option<Gesture>, pos: Point)
    requires Inv(s, total) && Stabilize(s, raw).currentGesture == Some(Erase)
    ensures var o := Frame(s, total, raw, pos);
            && o.Ok? && o.state.slide == s.slide && !o.state.annotationStart
            && (!s.buttonPressed && s.annotations != [] ==>
                  && o.state.annotations + [s.annotations[|s.annotations| - 1]] == s.annotations
                  && o.state.annotationNumber ==
                       (if s.annotationNumber > 0 then s.annotationNumber - 1 else 0)
                  && o.state.buttonPressed && o.state.counter == 1)
            && (s.buttonPressed || s.annotations == [] ==>
                  && o.state.annotations == s.annotations
                  && o.state.annotationNumber == s.annotationNumber
                  && (!s.buttonPressed ==> !o.state.buttonPressed))
  {
  }

  /** A confirmed Next with the gate open below the last slide moves one
      slide on, resets the strokes to one empty stroke and closes the gate.
      At the last slide, or with the gate closed, slide and strokes stay as
      they were and the gate is not closed by this frame. */
  lemma NextFrame(s: State, total: int, raw: Option<Gesture>, pos: Point)
    requires Inv(s, total) && Stabilize(s, raw).currentGesture == Some(Next)
    ensures var o := Frame(s, total, raw, pos);
            && o.Ok? && 0 <= o.state.slide < total && !o.state.annotationStart
            && (!s.buttonPressed && s.slide < total - 1 ==>
                  && o.state.slide == s.slide + 1
                  && o.state.annotations == [[]] && o.state.annotationNumber == 0
                  && o.state.buttonPressed && o.state.counter == 1)
            && (s.buttonPressed || s.slide == total - 1 ==>
                  && o.state.slide == s.slide
                  && o.state.annotations == s.annotations
                  && o.state.annotationNumber == s.annotationNumber
                  && (!s.buttonPressed ==> !o.state.buttonPressed))
  {
  }

  /** Previous mirrors Next, guarded at slide 0. */
  lemma PreviousFrame(s: State, total: int, raw: Option<Gesture>, pos: Point)
    requires Inv(s, total) && Stabilize(s, raw).currentGesture == Some(Previous)
    ensures var o := Frame(s, total, raw, pos);
            && o.Ok? && 0 <= o.state.slide < total && !o.state.annotationStart
            && (!s.buttonPressed && s.slide > 0 ==>
                  && o.state.slide == s.slide - 1
                  && o.state.annotations == [[]] && o.state.annotationNumber == 0
                  && o.state.buttonPressed && o.state.counter == 1)
            && (s.buttonPressed || s.slide == 0 ==>
                  && o.state.slide == s.slide
                  && o.state.annotations == s.annotations
                  && o.state.annotationNumber == s.annotationNumber
                  && (!s.buttonPressed ==> !o.state.buttonPressed))
  {
  }

  /** Pointer is continuous: it never touches slide or strokes, closes any
      open stroke, and neither waits for nor closes the gate. */
  lemma PointerFrame(s: State, total: int, raw: Option<Gesture>, pos: Point)
    requires Inv(s, total) && Stabilize(s, raw).currentGesture == Some(Pointer)
    ensures var o := Frame(s, total, raw, pos);
            && o.Ok? && o.state.slide == s.slide && o.state.annotations == s.annotations
            && !o.state.annotationStart
            && !Fires(s, total, raw)
            && o.state == Cooldown(s.(previousGesture := o.state.previousGesture,
                                     gestureCounter := o.state.gestureCounter,
                                     currentGesture := Some(Pointer),
                                     annotationStart := false))
  {
  }

  // ---------------------------------------------------------------------
  // The cooldown gate

  /** What one completed frame does to the gate: a firing frame closes it
      with the counter at 1; otherwise a closed gate counts on and reopens
      once the count passes Delay, and an open gate stays open. */
  lemma CooldownStep(s: State, total: int, raw: Option<Gesture>, pos: Point)
    requires Inv(s, total)
    requires Frame(s, total, raw, pos).Ok?
    ensures var t := Frame(s, total, raw, pos).state;
            && (Fires(s, total, raw) ==> t.buttonPressed && t.counter == 1)
            && (!Fires(s, total, raw) && !s.buttonPressed ==> !t.buttonPressed && t.counter == 0)
            && (s.buttonPressed && s.counter < Delay ==> t.buttonPressed && t.counter == s.counter + 1)
            && (s.buttonPressed && s.counter == Delay ==> !t.buttonPressed && t.counter == 0)
  {
  }

  /** A frame fires exactly when it finds the gate open and leaves it closed. */
  lemma FiresIff(s: State, total: int, raw: Option<Gesture>, pos: Point)
    requires Inv(s, total)
    requires Frame(s, total, raw, pos).Ok?
    ensures Fires(s, total, raw) <==> !s.buttonPressed && Frame(s, total, raw, pos).state.buttonPressed
  {
  }

  /** With the gate closed at count c, the next Delay + 1 - c frames fire
      nothing. */
  lemma {:induction false} NoFireWhileClosed(s: State, total: int, ins: seq<Input>)
    requires Inv(s, total) && s.buttonPressed && |ins| <= Delay + 1 - s.counter
    ensures FireCount(s, total, ins) == 0
    decreases |ins|
  {
    if ins != [] {
      var o := Frame(s, total, ins[0].raw, ins[0].pos);
      if o.Ok? {
        CooldownStep(s, total, ins[0].raw, ins[0].pos);
        FramePreservesInv(s, total, ins[0].raw, ins[0].pos);
        if o.state.buttonPressed {
          NoFireWhileClosed(o.state, total, ins[1..]);
        } else {
          assert ins[1..] == [];
        }
      }
    }
  }

  /** At most one single-trigger action fires in any Delay + 1 consecutive
      frames. */
  lemma {:induction false} AtMostOneFirePerWindow(s: State, total: int, ins: seq<Input>)
    requires Inv(s, total) && |ins| <= Delay + 1
    ensures FireCount(s, total, ins) <= 1
    decreases |ins|
  {
    if ins != [] {
      var o := Frame(s, total, ins[0].raw, ins[0].pos);
      if o.Ok? {
        CooldownStep(s, total, ins[0].raw, ins[0].pos);
        FramePreservesInv(s, total, ins[0].raw, ins[0].pos);
        if Fires(s, total, ins[0].raw) {
          NoFireWhileClosed(o.state, total, ins[1..]);
        } else {
          AtMostOneFirePerWindow(o.state, total, ins[1..]);
        }
      }
    }
  }

  /** With the gate closed at count c, it is open again, counter at 0, after
      exactly Delay + 1 - c more frames (the run not having failed). */
  lemma {:induction false} GateReopens(s: State, total: int, ins: seq<Input>)
    requires Inv(s, total) && s.buttonPressed && |ins| == Delay + 1 - s.counter
    requires Run(s, total, ins).Ok?
    ensures !Run(s, total, ins).state.buttonPressed && Run(s, total, ins).state.counter == 0
    decreases |ins|
  {
    var o := Frame(s, total, ins[0].raw, ins[0].pos);
    CooldownStep(s, total, ins[0].raw, ins[0].pos);
    FramePreservesInv(s, total, ins[0].raw, ins[0].pos);
    if s.counter < Delay {
      GateReopens(o.state, total, ins[1..]);
    } else {
      assert ins[1..] == [];
    }
  }
}
