# MagicTypeCube orientation and interaction engine, in Dafny

MagicTypeCube shows a cube with six "wisdom" cards, one per face. The user can
drag the cube to rotate it. A click, or the spin button, spins it to a random
face. Releasing a drag snaps it to the face that points most directly at the
viewer. When a spin or snap finishes, the card of the face it landed on
becomes the active wisdom.

This project models that engine and proves properties of it:

- `types.dfy` (module `Types`): the six faces, listed in the order Front, Back, Right,
  Left, Top, Bottom. It also holds the `Wisdom` record, the `Rotation` (pitch `x`,
  yaw `y`, in degrees as reals, never wrapped) and the pointer `Point`.
- `catalogue.dfy` (module `Catalogue`): the six-entry catalogue, `CubeSize` (200) and
  the lookup of an entry by face.
- `orientation.dfy` (module `Orientation`): the pure arithmetic.
  - The home orientation of each face.
  - The drag update.
  - The six face scores, a reference definition of the nearest face, and the argmax
    scan as a method with a loop.
  - The snap to the nearest same-face angle.
  - The spin target and duration planner.
- `controller.dfy` (module `Controller`): the interaction state machine.
  - Each handler is a step function on a `Snapshot` of the component state.
    The handlers are mount, press, move, release, spin, snap and timer completion.
  - The class `CubeController` holds the same state in fields. Each of its methods
    performs one step in place and ensures `View() == Step(old(View()))`.
  - A scheduled `setTimeout` completion is a `Commit` in the `pending` sequence.
    `Complete(i)` fires any scheduled one.

JavaScript's `Math.round` is modelled as `(r + 0.5).Floor`, so halves round up.
`Math.ceil` is modelled as `-((-r).Floor)`. The cosines and sines of the
orientation are a `Trig` parameter with uninterpreted values. The random
draws are parameters restricted to the ranges the code produces (`RandomDraw`).

Two properties are proved for the states that gestures and timers can reach:
- `Consistent`: what is shown or scheduled is always a catalogue entry, and
  durations stay within 0.6 s to 1.5 s.
- `Exclusive`: drag and spin never run together, at most one completion is
  pending, and that completion commits the face the cube was turned to.

Two behaviours of the code are easy to misread; the model follows the code:

- Spinning from `x = 0` to Top with no extra pitch turn yields pitch target
  270, not the home pitch -90 itself. `ceil(90/360)` is 1, so the target is one turn past -90
  (`SpinFromRestToTop`).
- The code does not make drag and spin mutually exclusive. The spin button is
  only disabled while spinning (App.tsx:362-363), and `spinCube` checks only
  `isSpinning`, so a spin can start during a drag. Releasing that drag then runs
  the snap flow, which has no guard, and two timers become pending.
  `ButtonDuringDragOverlaps` shows this sequence. `Exclusive` is therefore proved
  for gestures and timers, and for a spin started while no drag is in progress.

## Model

| member | source | states |
|---|---|---|
| Types.Index | types.ts:1-8 | each face has a position in the enumeration order, and that position holds the face |
| Types.FaceOrderIsEnumeration | types.ts:1-8 | the order lists exactly the six faces, each once |
| Catalogue.CatalogueLayout | constants.ts:3-100 | six entries, on faces Front, Back, Right, Left, Top, Bottom in that order, with ids 1 to 6 in array order |
| Catalogue.CatalogueEntriesDistinct | constants.ts:3-100 | no two entries share a face or an id |
| Catalogue.Find | App.tsx:103 | the array `find` by face: a found entry is in the array and is on the requested face; nothing is found exactly when no entry has that face |
| Catalogue.FindLocates | App.tsx:103 | `find` returns the entry at the first index on the requested face |
| Catalogue.FindByFace | App.tsx:103 | the catalogue lookup returns only catalogue entries on the requested face |
| Catalogue.FindByFaceSucceeds | constants.ts:3-100 | because every face has an entry, the lookup never yields null and returns that face's entry |
| Catalogue.InitialWisdomIsFront | App.tsx:46-48 | the entry shown at mount is the Front card, id 1 |
| Orientation.HomeRotationsDistinct | App.tsx:11-18 | the six home orientations of the face table are pairwise distinct |
| Orientation.ShowsAtMostOneFace | App.tsx:11-18 | the home orientations stay distinct modulo whole turns on each axis, so an orientation shows at most one face |
| Orientation.ApplyDrag | App.tsx:134-137 | a pointer move to the right increases the yaw and one to the left decreases it; a move down decreases the pitch and one up increases it; a move of no distance changes nothing |
| Orientation.DragAlongTelescopes | App.tsx:131-139 | a run of pointer moves rotates the cube as one move from the first to the last position would |
| Orientation.DragRoundTrip | App.tsx:134-137 | moving the pointer away and back restores the orientation |
| Orientation.ScoresArePaired | App.tsx:63-70 | the scores of opposite faces are negations of each other |
| Orientation.ScoresFormUnitVector | App.tsx:63-70 | for genuine cosines and sines, the Front, Right and Top scores are the coordinates of a unit vector, the view direction |
| Orientation.HighestScoreBound | App.tsx:63-81 | for genuine cosines and sines the highest score is positive with a square of at least 1/3, so the chosen face is never turned far from the viewer |
| Orientation.MaxScore | App.tsx:72-81 | the highest score bounds all six and is attained by one face |
| Orientation.Nearest | App.tsx:72-81 | reference definition: the first face in enumeration order attaining the highest score satisfies IsNearest |
| Orientation.NearestIsUnique | App.tsx:72-81 | at most one face satisfies IsNearest, so the strict-`>` scan has a single answer |
| Orientation.NearestFace | App.tsx:72-81 | the scan from minus infinity with strict `>` returns a face scoring at least every other, beating every earlier face strictly, equal to Nearest, with a score of at least zero |
| Orientation.HomeSelectsFace | App.tsx:63-81 | at each face's home orientation (exact cosines and sines) that face is the nearest; Front wins at (0, 0) |
| Orientation.NearRestSelectsFront | App.tsx:63-81 | near Front's home, which includes the initial tilt (-15, -25), Front is the nearest face |
| Orientation.JsRound | App.tsx:91 | `Math.round`: the integer within half of `r`, halves rounded up |
| Orientation.JsCeil | App.tsx:194 | `Math.ceil`: the least integer not below `r` |
| Orientation.SnapToClosest | App.tsx:89-93 | the snapped angle differs from the face's home by whole turns and is at most 180 degrees from the current angle |
| Orientation.SnapToClosestIsNearest | App.tsx:89-93 | no other whole-turn offset of the home angle is strictly closer to the current angle |
| Orientation.SnapAtRest | App.tsx:89-93 | an angle already a whole number of turns from home snaps to itself |
| Orientation.SnapTarget | App.tsx:84-96 | the snap target shows the chosen face and lies within 180 degrees on each axis |
| Orientation.SnapFromInitialTilt | App.tsx:95-96 | snapping from (-15, -25) to Front lands on (0, 0) |
| Orientation.SpinTarget | App.tsx:194-198 | the spin target on an axis is congruent to the home angle, at least the extra turns ahead of the current angle and less than one more turn beyond |
| Orientation.SpinTargetIsLeast | App.tsx:194-198 | the spin target is the least whole-turn offset of the home angle that is at least the extra turns ahead |
| Orientation.Clamp | App.tsx:212 | `Math.min(hi, Math.max(lo, v))` lies in [lo, hi] and is `v` when `v` already does |
| Orientation.SpinDuration | App.tsx:207-212 | the spin duration always lies in [0.8, 1.5] seconds |
| Orientation.PlanSpin | App.tsx:181-212 | the planned spin shows the drawn face, moves forward on both axes by the extra turns plus less than one turn, and lasts 0.8 to 1.5 s |
| Orientation.RandomSpinDuration | App.tsx:191-212 | with the drawn extra turns a spin lasts at least 1.05 s, and exactly 1.5 s with 1 extra pitch and 2 extra yaw turns |
| Orientation.SpinFromRestToTop | App.tsx:194-198 | from (0, 0) to Top with extras 0 and 1 the target is (270, 360) |
| Controller.ClickIffWithinRadius | App.tsx:149-151 | the squared-distance test agrees with `Math.hypot(...) < 5` for the non-negative distance |
| Controller.ClickBoundary | App.tsx:151 | a release 5 px away is a drag; 4.99 px away is a click |
| Controller.MountStep | App.tsx:46-48 | the mount effect shows the Front card |
| Controller.PressStep | App.tsx:112-122 | a press is ignored while spinning; otherwise it starts a drag and records the press point as both last and start position |
| Controller.MoveStep | App.tsx:125-140 | a move is ignored unless dragging; it never changes the shown card, the spinning flag or the schedule |
| Controller.MoveAlong | App.tsx:125-140 | a run of moves is ignored unless dragging, and never changes the dragging or spinning flags, the shown card, the schedule, the press position or the duration |
| Controller.MoveAlongIsOneDrag | App.tsx:125-140 | during a drag, a run of moves leaves the rotation of one drag from the first to the last position and remembers the last position |
| Controller.SpinStep | App.tsx:175-229 | ignored while spinning; otherwise spinning, turned forward to the drawn face by the drawn extra turns plus less than one turn, lasting 1.05 to 1.5 s, the shown card unchanged, and that card's commit appended after the duration in ms |
| Controller.SnapStep | App.tsx:98-108 | spinning for 0.6 s, turned to show the nearest face by at most 180 degrees per axis, the shown card unchanged, and the nearest face's card committed after 600 ms |
| Controller.ReleaseStep | App.tsx:142-158 | ignored unless dragging; otherwise ends the drag, snaps to the nearest face for a drag and spins to the drawn face for a click, except that a click while spinning only ends the drag |
| Controller.CompleteStep | App.tsx:225-228 | a firing timer shows its card, clears spinning, keeps the rotation and removes exactly itself from the schedule |
| Controller.InitialIsConsistent | App.tsx:34-48 | the initial state and the state after mount are consistent |
| Controller.GesturesKeepConsistent | App.tsx:112-140 | press and move (and the mount effect of App.tsx:46-48) keep shown and scheduled cards in the catalogue and durations and delays in range |
| Controller.ReleaseKeepsConsistent | App.tsx:142-158 | a release, whether it ends a drag, starts a spin or snaps, keeps the state consistent |
| Controller.SpinKeepsConsistent | App.tsx:214-228 | the spin flow keeps the state consistent |
| Controller.SnapKeepsConsistent | App.tsx:99-108 | the snap flow keeps the state consistent |
| Controller.CompleteKeepsConsistent | App.tsx:105-108 | a completion keeps the state consistent and always leaves a card shown, never null |
| Controller.InitialIsExclusive | App.tsx:34-48 | the initial state is exclusive: idle, not dragging, nothing scheduled |
| Controller.GesturesKeepExclusive | App.tsx:113-157 | press, move, release and mount keep drag and spin exclusive with one completion scheduled exactly while spinning, committing the face turned to; so does a spin started outside a drag |
| Controller.ExclusiveShowsOnlyCommitted | App.tsx:214-228 | while a completion (of a spin, or of a snap at App.tsx:99-108) is scheduled in an exclusive state, the orientation shows the committed face and no other |
| Controller.CompleteSettles | App.tsx:225-228 | in an exclusive state the completion leaves the cube idle with nothing scheduled, showing the shown card's face and no other |
| Controller.ButtonDuringDragOverlaps | App.tsx:175-176 | the spin button during a drag spins while dragging; a later drag release schedules a second completion, and the first one to fire clears spinning with one still pending |
| Controller.CubeController.constructor | App.tsx:34-43 | the initial state: tilt (-15, -25), idle, duration 1.2 s, no card shown |
| Controller.CubeController.Mount | App.tsx:46-48 | performs the mount step in place |
| Controller.CubeController.Press | App.tsx:112-122 | performs the press step in place |
| Controller.CubeController.Move | App.tsx:125-140 | performs the move step in place |
| Controller.CubeController.SpinCube | App.tsx:175-229 | performs the spin step in place |
| Controller.CubeController.SnapToNearestFace | App.tsx:51-109 | runs the argmax scan and performs the snap step in place |
| Controller.CubeController.Release | App.tsx:142-158 | performs the release step in place |
| Controller.CubeController.Complete | App.tsx:105-108 | performs the completion of the chosen timer in place |

## Left out

- Trigonometry (`Math.cos`/`Math.sin`, App.tsx:53-61): floating-point numerics. The
  cosines and sines are the `Trig` parameter of the snap, so the model does not tie
  them to the rotation. `HomeSelectsFace` uses the exact values at quarter turns.
- IEEE floating point in general: angles, durations and delays are exact reals.
- `Math.hypot` (App.tsx:149): replaced by the squared-distance comparison.
  `ClickIffWithinRadius` relates the two.
- `Math.random` (App.tsx:179, 191-192): the draws are parameters within their ranges.
- Timer timing (App.tsx:105, 225): only the scheduling and the firing of a completion
  are modelled. `Complete(i)` lets any pending one fire, not the one with the earliest
  deadline.
- Teardown: the code never clears its timers, so the model has no cancellation.
- Listener registration (App.tsx:160-172) and reading touch or mouse coordinates
  (App.tsx:115-116, 128-129, 147-148): host I/O. Handlers receive a `Point`.
- React closure capture: every handler sees the current state. Stale values that a
  captured callback might see are not modelled.
- All rendering: the JSX (App.tsx:236-381), the background gradient lookup
  (App.tsx:22-31, 232-234), components/Cube.tsx (CSS transform strings),
  components/WisdomDisplay.tsx (markup and syntax highlighting) and components/Icon.tsx
  (an icon library lookup).
- The `detail` and `codeSnippet` text of each card (types.ts:15-16 and their values in
  constants.ts): only the display reads them, and no operation of the model depends
  on them, so `Wisdom` carries the remaining fields only.
