# Virtual presenter: gesture pipeline and presentation state machine

A webcam-driven slide presenter. Each frame, a hand tracker reports 21
landmarks of one hand (or none). The landmarks become a five-bit finger vector
(thumb, index, middle, ring, pinky). An exact-match table turns that vector
into a raw gesture: Pointer, Draw, Erase, Next, Previous or none. A
stabilizer confirms a raw gesture once it has repeated for more than
`HoldFrames` (5) frames. The confirmed, stable gesture acts on the
presentation state: the slide index, the strokes drawn on the current slide,
and a "stroke open" flag. Pointer and Draw act every frame. Erase, Next and
Previous act only while a cooldown gate is open. Each such action closes the
gate for `Delay` (30) frames.

Files:

- `gestures.dfy`, module `Gestures`: the finger-state classifier and the
  gesture table. `ComputeFingers` is the classifier's loop, proved equal to
  the geometric definition `Fingers`/`FingerUp`.
- `presentation.dfy`, module `Presentation`: the loop's state as the datatype
  `State`, and one frame as functions. `Stabilize` is the stabilizer,
  `Dispatch` with `DrawAction`, `EraseAction`, `NextAction` and
  `PreviousAction` is the dispatcher, `StopDrawing` is the stop-drawing rule,
  `Cooldown` is the gate, and `Frame` composes them. `Run` and `FireCount`
  run many frames. `Inv` is the invariant every completed frame keeps.
- `presentation_lemmas.dfy`, module `PresentationProperties`: properties
  over one frame and over runs of frames.
- `presenter.dfy`, module `PresenterLoop`: class `Presenter`, whose fields are
  the loop's globals. `Step` updates them in place, section by section, as
  the loop does. `ProcessFrame` adds the classifier and the table in front of
  `Step`. Both are proved to leave the fields equal to `Frame` of the old
  fields.

The source fails at one point, and the model shows that failure instead of
hiding it. Erase pops a stroke even when the only stroke is the initial empty
one. `annotationNumber` stays at 0, so the slide is left with no strokes. A
later Draw opens a stroke, which is index 0, but raises `annotationNumber` to 1
and writes to index 1. Python raises IndexError there and the program ends.
In the model, `Frame` returns `IndexError` and `Presenter.Step` returns
`false`. `FaultIff` states exactly when a frame fails. `EraseThenDrawFails`
gives a run from start-up that reaches the failure: seven Erase frames, then
seven Draw frames. Because of this, `Inv` states the stroke-index invariant
with its exception: `annotationNumber == |annotations| - 1`, or 0 when
`annotations` is empty.

Two behaviours of the code differ from what one would expect of it, and the
model follows the code:

- Hold delay. The streak counter starts at 0 on the first frame of a new
  gesture, so a gesture is confirmed on frame `HoldFrames + 2`, the seventh
  frame, not the sixth (`ConfirmationFrame`).
- Erase on one empty stroke is not a no-op. The code pops that stroke and
  closes the gate (`EraseFrame`).

## Model

| member | source | states |
|---|---|---|
| Gestures.ComputeFingers | virtual_presenter.py:80-95 | the thumb bit is 1 exactly when the thumb tip (landmark 4) lies right of landmark 3; bit f of the other fingers is 1 exactly when tip `TipIds[f]` lies above the landmark two ids below it; the vector has five bits and equals `Fingers(lm)` |
| Gestures.MapGesture | virtual_presenter.py:101-110 | closed-world table: the result is `Some(g)` exactly when the vector is g's pattern, and `None` exactly when it matches no pattern |
| Gestures.RawGesture | virtual_presenter.py:65-110 | no hand, or an empty landmark list, gives no gesture; a gesture is only ever reported for a full 21-landmark hand |
| Gestures.RawGestureGeometry | virtual_presenter.py:85-110 | a hand shows gesture g exactly when every finger's extension agrees with g's pattern |
| Presentation.Stabilize | virtual_presenter.py:113-122 | the previous gesture becomes this frame's raw gesture; the streak resets to 0 exactly when the raw gesture changes and otherwise grows by one; the stable gesture is none or the raw gesture, non-none only past the threshold and always the raw gesture past it; nothing else changes |
| Presentation.Cooldown | virtual_presenter.py:175-179 | an open gate is untouched; a closed gate below `Delay` counts one more frame; at `Delay` it reopens with the counter at 0; only counter and gate change |
| Presentation.Frame | virtual_presenter.py:113-179 | the stable gesture after the frame is the stabilizer's; no stroke is open after a frame whose stable gesture is not Draw; only a stable Draw can fail |
| PresentationProperties.InitialInv | virtual_presenter.py:19-42 | the start-up state satisfies the invariant for any deck of at least one slide |
| PresentationProperties.FramePreservesInv | virtual_presenter.py:128-179 | every completed frame keeps the invariant: slide in range, `annotationNumber` the index of the last stroke (0 when none), open stroke only under stable Draw, counter running only while the gate is closed |
| PresentationProperties.FaultIff | virtual_presenter.py:132-147 | a frame fails exactly when the stable gesture is Draw, no stroke is open and the stroke list is empty |
| PresentationProperties.EraseThenDrawFails | virtual_presenter.py:132-147 | from start-up, seven Erase frames followed by seven Draw frames end in the IndexError |
| PresentationProperties.RunSameGesture | virtual_presenter.py:113-122 | frames whose repeated raw gesture is not yet confirmed leave slide and strokes unchanged, leave no stroke open and count the streak up |
| PresentationProperties.PositionOnlyMattersForDraw | virtual_presenter.py:128-138 | the fingertip position affects a frame only when its raw gesture is Draw |
| PresentationProperties.HoldRun | virtual_presenter.py:113-123 | after k frames of one raw gesture the streak continues the old one if the gesture was already previous, else it is k - 1; the stable gesture is that gesture exactly when the streak exceeds the threshold |
| PresentationProperties.ConfirmationFrame | virtual_presenter.py:113-122 | a new gesture becomes stable on its seventh consecutive frame and not before; until then the stable gesture is none |
| PresentationProperties.StaysConfirmed | virtual_presenter.py:119-123 | confirmation never resets the streak: once g is stable, every further frame of g keeps it stable |
| PresentationProperties.FrameStabilizerFields | virtual_presenter.py:113-179 | a completed frame leaves the previous gesture, the streak and the stable gesture as the stabilizer set them; dispatch, stop-drawing and the gate do not touch them |
| PresentationProperties.RunFollowsStabilizer | virtual_presenter.py:113-179 | after a run of whole frames that does not fail, the previous gesture, the streak and the stable gesture are those of the stabilizer alone run on the frames' raw gestures |
| PresentationProperties.RunConfirmationFrame | virtual_presenter.py:113-122 | over whole frames, a new gesture becomes stable on its seventh consecutive frame and not before; until then the stable gesture is none |
| PresentationProperties.RunStaysConfirmed | virtual_presenter.py:119-123 | over whole frames, once g is stable every further frame of g keeps it stable |
| PresentationProperties.DrawContinues | virtual_presenter.py:132-137 | while a stroke is open, each Draw frame appends its point to the last stroke; no other stroke changes, and the stroke index and slide stay |
| PresentationProperties.DrawRun | virtual_presenter.py:132-137 | a run of stable-Draw frames starting with no stroke open and at least one stroke (with none, the first frame fails: `FaultIff`) opens exactly one stroke: `annotationNumber` grows by one and the strokes become the old ones plus the run's points in order |
| PresentationProperties.EraseFrame | virtual_presenter.py:141-150 | with the gate open and strokes present, Erase removes exactly the last stroke, decrements `annotationNumber` only when above 0 and closes the gate; with no strokes or a closed gate, strokes are unchanged and the gate is not closed by the frame; the slide never changes |
| PresentationProperties.NextFrame | virtual_presenter.py:152-158 | with the gate open below the last slide, Next moves one slide on, resets the strokes to one empty stroke and closes the gate; at the last slide or with the gate closed, slide and strokes are unchanged and the gate is not closed by the frame |
| PresentationProperties.PreviousFrame | virtual_presenter.py:160-166 | the mirror of Next, guarded at slide 0 |
| PresentationProperties.PointerFrame | virtual_presenter.py:128-129 | Pointer leaves slide and strokes alone, closes any open stroke and neither fires nor waits for the gate |
| PresentationProperties.CooldownStep | virtual_presenter.py:141-179 | a firing frame leaves the gate closed with the counter at 1; a non-firing frame keeps an open gate open; a closed gate counts on and reopens at `Delay` |
| PresentationProperties.FiresIff | virtual_presenter.py:141-166 | a frame executes a single-trigger action exactly when it finds the gate open and leaves it closed |
| PresentationProperties.NoFireWhileClosed | virtual_presenter.py:141-179 | with the gate closed at count c, the next `Delay + 1 - c` frames fire nothing |
| PresentationProperties.AtMostOneFirePerWindow | virtual_presenter.py:141-179 | from any state satisfying the invariant, at most one single-trigger action fires in any `Delay + 1` consecutive frames |
| PresentationProperties.GateReopens | virtual_presenter.py:175-179 | with the gate closed at count c, it is open with the counter at 0 after exactly `Delay + 1 - c` frames |
| PresenterLoop.Presenter.constructor | virtual_presenter.py:19-42 | start-up fields: the initial state, which satisfies the invariant |
| PresenterLoop.Presenter.Step | virtual_presenter.py:113-179 | the fields after the frame are `Frame` of the fields before; the result is false exactly where the source raises IndexError; the invariant is kept |
| PresenterLoop.Presenter.Confirm | virtual_presenter.py:113-122 | the fields after the stabilizer are `Stabilize` of the fields before |
| PresenterLoop.Presenter.Act | virtual_presenter.py:128-166 | the fields after dispatch are `Dispatch` of the fields before, or false on the IndexError |
| PresenterLoop.Presenter.DrawStroke | virtual_presenter.py:132-137 | the fields after drawing are `DrawAction` of the fields before, or false on the IndexError |
| PresenterLoop.Presenter.CoolDown | virtual_presenter.py:175-179 | the fields after the gate are `Cooldown` of the fields before |
| PresenterLoop.Presenter.ProcessFrame | virtual_presenter.py:65-179 | one frame from the tracker's output: the fields after are `Frame` of the fields before, with the raw gesture from the classifier and table and the index fingertip as position |

## Left out

- Webcam capture, mirroring and colour conversion (virtual_presenter.py:13-15, 53-57): camera I/O. A failed capture ends the loop before the core runs.
- Hand detection and landmark drawing (virtual_presenter.py:23-25, 59, 70): an external model. Its output is taken as an optional list of points; `Trackable` admits no hand, an empty list, or at least 21 points.
- The float-to-pixel conversion of landmarks (virtual_presenter.py:76): floating point. Coordinates are integers. The landmark id of each entry is its position in the list.
- Slide enumeration, loading and resizing (virtual_presenter.py:18, 48-50): filesystem and image I/O. Only the slide count matters, and it must be at least 1; an empty folder makes the source fail at its first slide load.
- Circles, lines, the canvas, compositing, the webcam overlay and display (virtual_presenter.py:130, 138, 182-202): rendering.
- Console messages, the quit key and cleanup (virtual_presenter.py:149, 157, 165, 205-211): console, UI and teardown.
- Gestures.IndexTipOf: with no hand, the source keeps the fingertip position of an earlier frame, and before any hand the variable is unbound. The model passes the origin instead. `PositionOnlyMattersForDraw` and `RawGesture` show that no action reads that value: only a stable Draw uses the position, and a stable Draw needs a detected hand in that frame.
- PresenterLoop.Presenter.Step: after a `false` result (the source's IndexError), the fields hold the partly updated state at the point of failure. Nothing about them is promised, since the program has ended.
- Hand chirality: the thumb test assumes a right hand, as the source does. Mirrored hands are not modelled differently.
