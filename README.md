# Slide drag movement, verified in Dafny

This project models the `Slide` class of `js/slide.js`: a horizontal track
inside a wrapper element that the user drags with the mouse. The class keeps a
`movement` record `{ currentX, clickX, finalX }`. A mouse-down on the wrapper
(`onStart`) records the pointer X as `clickX` and attaches a mousemove
listener; each mousemove (`onMove`) computes the live offset
`(clientX - clickX) * 1.6 + currentX` (`updatePosition`), stores it in `finalX`
and writes it to the track's `translate3d` transform (`moveSlide`); a mouse-up
(`onEnd`) detaches the listener and commits `currentX := finalX`.

`slide.dfy` holds one module, `SlideDrag`:

- `DragState` is the movement record plus `dragging` (the mousemove listener
  is attached) and `transform` (the offset last drawn, `None` before the first
  draw). `Placed`, `Updated`, `Started`, `Moved` and `Ended` are the effects of
  `moveSlide`, `updatePosition`, `onStart`, `onMove` and `onEnd` on such a
  value; `Step` routes one wrapper event to its handler, and `Run` applies a
  sequence of events.
- The class `Slide` has the same state as mutable fields, one method per
  handler, each taking the pointer X as a parameter, and each proved to change
  its fields exactly as the matching function says. `Dispatch` plays the
  wrapper's listeners, so every lemma about `Run` describes any sequence of
  `Dispatch` calls.
- Coordinates are `real`; the acceleration factor is the exact constant
  `Accel = 1.6`.

The source's early-draft state shows in what is modelled: the file has no
slide list, snapping, active index, navigation, touch events or `displacement`
field, so the model has none either.

A reader of `finalX` would naturally expect it to be the offset the track is
shown at. The code keeps that true only between handlers: `updatePosition`
(js/slide.js:16) writes `finalX` without drawing, and it is `onMove`
(js/slide.js:27-28) that draws right after. `UpdateAloneLeavesStaleTransform`
shows a state in which `updatePosition` alone leaves the two apart;
`StepKeepsRendered` and `RunKeepsRendered` prove that every handler restores
them, and that outside a drag `finalX` also equals the committed `currentX`.

## Model

| member | source | states |
|---|---|---|
| `SlideDrag.Slide.constructor` | js/slide.js:5 | a new slide has `currentX = clickX = finalX = 0`, no drag in progress and nothing drawn |
| `SlideDrag.InitialRendered` | js/slide.js:5 | the initial state is idle, all offsets are zero, it is shown at `finalX` (0, nothing drawn yet) and `currentX == finalX` |
| `SlideDrag.Position` | js/slide.js:14-15 | the live offset determines the pointer X it came from (`(r - currentX) / 1.6 + clickX == clientX`); zero pointer travel gives zero movement; the track moves right (left) of `currentX` exactly when the pointer is right (left) of `clickX` |
| `SlideDrag.Slide.MoveSlide` | js/slide.js:8-11 | sets `finalX` to the argument and draws it; `currentX`, `clickX` and the listener are unchanged |
| `SlideDrag.Slide.UpdatePosition` | js/slide.js:13-18 | returns the offset for `clientX`, stores it in `finalX`, and changes nothing else (in particular it draws nothing) |
| `SlideDrag.UpdateAloneLeavesStaleTransform` | js/slide.js:13-18 | there is a reachable state in which `updatePosition` alone leaves the drawn transform different from `finalX` |
| `SlideDrag.Slide.OnStart` | js/slide.js:20-24 | sets `clickX` to the pointer X and attaches the move listener; `currentX`, `finalX` and the drawing are unchanged |
| `SlideDrag.Slide.OnMove` | js/slide.js:26-29 | `finalX` becomes the offset for the pointer X and is drawn; `currentX`, `clickX` and the listener are unchanged |
| `SlideDrag.Slide.OnEnd` | js/slide.js:31-34 | detaches the move listener and sets `currentX` to `finalX`; nothing else changes |
| `SlideDrag.EndIdempotent` | js/slide.js:31-34 | a second mouse-up has no further effect |
| `SlideDrag.Slide.Dispatch` | js/slide.js:36-39 | mouse-down and mouse-up always reach `onStart`/`onEnd`; a mousemove reaches `onMove` only while the listener is attached; the new state is `Step` of the old |
| `SlideDrag.CommitOnlyAtEnd` | js/slide.js:33 | only mouse-up changes `currentX`, and it sets it to the shown `finalX`; `clickX` changes exactly on mouse-down, to the pointer X; the listener is attached after an event iff it was a mouse-down or a move while attached |
| `SlideDrag.StepKeepsRendered` | js/slide.js:26-29 | every event keeps the track shown at `finalX`, and keeps `currentX == finalX` whenever no drag is in progress |
| `SlideDrag.RunKeepsRendered` | js/slide.js:26-29 | the same two invariants for any sequence of events |
| `SlideDrag.MovesKeepAnchor` | js/slide.js:13-18 | during a drag, moves leave `currentX`, `clickX` and the listener unchanged, and after one or more moves `finalX` and the drawing are the offset for the last pointer X |
| `SlideDrag.IgnoredMoves` | js/slide.js:23 | without the listener attached, mousemoves change nothing |
| `SlideDrag.LastMoveWins` | js/slide.js:26-29 | in any state, the state after a run of moves depends only on the last pointer X |
| `SlideDrag.Session` | js/slide.js:20-34 | press at `x0`, one or more moves ending at `x1`, release: `currentX` grows by `(x1 - x0) * 1.6`, equals `finalX`, is what is drawn, and the listener is detached |
| `SlideDrag.EmptySession` | js/slide.js:20-34 | press and release with no move commits the previously shown `finalX`, leaves the drawing as it was and ends the drag |
| `SlideDrag.MissedReleaseSnapsBack` | js/slide.js:20-33 | when a mouse-up is missed, `currentX` is never committed, so the next press and move jump the track back from where it was shown (from 160 to 0 in the witness) |

## Left out

- The DOM lookups of the track and wrapper elements (`document.querySelector`, js/slide.js:3-4): foreign calls; the elements carry no state in the model beyond the transform.
- The transform string: `moveSlide` writes `translate3d(<finalX>px, 0, 0)`; the model keeps only the number, as a ghost field.
- `event.preventDefault()` in `onStart`: a browser side effect with no state here.
- Real listener registration, `addSlideEvents`, `bindEvents` and `init`: browser event plumbing and JavaScript `this` binding. Only whether the mousemove listener is attached survives, as `dragging`; `Dispatch` stands for the mousedown/mouseup/mousemove listeners. Attaching the same bound `onMove` twice registers it once, which the boolean captures.
- Floating point: the source computes with IEEE doubles; the model uses exact reals, so rounding of `1.6` and of the product is not modelled.
- A mouse-up that never arrives (the pointer leaves the wrapper): the listener then stays attached and the dragged offset is never committed; the source has no recovery for this and neither does the model. `MissedReleaseSnapsBack` shows the consequence: the next press and move snap the track back to the stale `currentX`.
