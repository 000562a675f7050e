# MCHPI hand-gesture mouse: a verified model of the tracking core

MCHPI moves the mouse pointer with the index fingertip seen by a webcam and turns a thumb-to-middle-finger
pinch into clicks and drags. Between the hand tracker and the operating system sit three small, per-frame
components, and this project models them in Dafny:

- **The 1-euro filter** (`OneEuro`, `one_euro.dfy`). One adaptive low-pass filter per axis.
  - The first sample passes through unchanged and bootstraps the filter.
  - After that, the sampling frequency becomes `1/te` only when both the new and the stored timestamp exist and their difference `te` is positive; otherwise it is kept. A filter whose first sample had no timestamp never stores one again until `reset`. The derivative is then smoothed.
  - The cutoff widens with the smoothed speed, and the output blends the input with the previous output.
  - `OneEuroFilter` is a class with the source's fields. `Filter` and `Reset` are proved against the value-level step function `Step` and the reset function `Cleared`.
- **The pinch detector** (`Gestures`, `gestures.dfy`). A click-versus-drag automaton over two flags, a recorded start time and a recorded start position.
  - Each frame yields nothing, a click, a drag start, a drag frame or a drag end.
  - `GestureDetector` is a class. `UpdatePinchState` is proved equal to the transition function `PinchStep`.
  - The reachable-state invariant `Consistent`, the pairing of drag starts with drag ends, and scenario lemmas that use the configured thresholds (0.2 s and 0.01) are proved.
- **The cursor motion controller** (`Control`, `controller.dfy`). Each frame runs a fixed pipeline:
  1. filter the finger position on both axes;
  2. on the first frame, record the baseline;
  3. ignore changes inside the deadzone;
  4. convert the displacement to pixels;
  5. smooth the velocity exponentially;
  6. limit the speed;
  7. integrate, and clamp the cursor to the screen margins;
  8. store the new baseline.

  `Controller` is a class that owns two distinct `OneEuroFilter` objects. `UpdateCursorFromFinger` is proved equal to the filters' `Step` followed by the motion function `Move`. The hand-lost branch of the capture loop is `OnHandLost`.

`Common` (`common.dfy`) holds the shared value type `Option`, the functions `Abs` and `SqNorm` (a sum of two squares, used both for the fingertip distances and for the cursor speed), and facts about squares, among them `CompareBySquare`, used by both the detector and the controller.

All arithmetic is over Dafny's exact `real`. Caller-supplied values replace the clock and the square root. The two places that read `time.time()` (src/controller.py:121 and src/gestures/detector.py:55) become a parameter `now` of `UpdateCursorFromFinger` and `UpdatePinchState`. `UpdateCursorFromFinger` passes it to both filters as `Some(now)`. The filter's own `timestamp` stays optional, as in the source, so `Filter` takes an `Option<real>` that may be `None`. The detector compares squared distances, and `CompareByDistance` proves this agrees with comparing the Euclidean distances. The controller's speed needs an actual square root, so the controller receives one as a constructor argument `sqrt`, with the contract `IsSqrt`: it returns the non-negative root of every non-negative real.

## Model

| member | source | states |
|---|---|---|
| OneEuro.Alpha | src/filters/one_euro.py:25-29 | for a positive cutoff and a positive frequency the smoothing factor lies strictly between 0 and 1 |
| OneEuro.Cutoff | src/filters/one_euro.py:63 | the adaptive cutoff is never below the minimum cutoff when the speed coefficient is non-negative |
| OneEuro.CutoffGrowsWithSpeed | src/filters/one_euro.py:63 | a faster smoothed derivative never yields a narrower cutoff |
| OneEuro.Retime | src/filters/one_euro.py:49-53 | the timestamp is stored only when both timestamps exist; otherwise frequency and stored time are kept; the frequency stays positive |
| OneEuro.FrequencyUpdate | src/filters/one_euro.py:49-53 | after bootstrap the frequency becomes `1/te` exactly when both timestamps exist and `te > 0`, and is kept otherwise |
| OneEuro.Smooth | src/filters/one_euro.py:60 | definition: a step of fraction `a` from the previous value toward the new one, used for both the derivative (line 60) and the position (line 67); `SmoothIsWeightedSum` proves it equal to the source's weighted sum and `SmoothBounds` carries its convexity |
| OneEuro.SmoothIsWeightedSum | src/filters/one_euro.py:67 | the smoothing step equals the source's weighted sum `a*x + (1-a)*prev` |
| OneEuro.SmoothBounds | src/filters/one_euro.py:66-67 | with a weight in [0, 1] the blend lies between previous and new value; with a weight in (0, 1) it is strictly closer to the new value; equal values are a fixed point |
| OneEuro.Step | src/filters/one_euro.py:43-73 | the first sample is returned unchanged and stored with its timestamp; later outputs lie between the previous output and the input, strictly closer to the input, with `x == prev_x` a fixed point; the stored value is the output; the frequency stays positive |
| OneEuro.Velocity | src/filters/one_euro.py:56 | definition: the raw derivative `(x - prev_x) * freq`; `BootstrappedStep` states that it is what the derivative smoothing receives |
| OneEuro.BootstrappedStep | src/filters/one_euro.py:49-71 | a bootstrapped step is retiming, then derivative smoothing at the derivative cutoff, then position smoothing at the adapted cutoff; `prev_dx` is the smoothed derivative and `prev_x` the output |
| OneEuro.Run | src/filters/one_euro.py:31-73 | feeding samples one by one gives one output per sample and keeps the frequency positive |
| OneEuro.RunStaysInHull | src/filters/one_euro.py:66-70 | every output of a run stays within any interval holding all inputs and the previous output |
| OneEuro.Cleared | src/filters/one_euro.py:75-79 | a reset clears the previous value, the derivative and the timestamp, and keeps the frequency |
| OneEuro.ResetPassesNextSample | src/filters/one_euro.py:75-79 | after a reset the next sample is returned unchanged |
| OneEuro.OneEuroFilter.constructor | src/filters/one_euro.py:8-23 | the given parameters and frequency, no previous value, zero derivative, no timestamp |
| OneEuro.OneEuroFilter.Filter | src/filters/one_euro.py:31-73 | the new state and the result are exactly those of `Step` on the old state |
| OneEuro.OneEuroFilter.Reset | src/filters/one_euro.py:75-79 | the state becomes `Cleared` of the old one, and whatever sample comes next passes through unchanged |
| Common.CompareBySquare | src/controller.py:151-152 | a non-negative length compares with a non-negative bound, by `<=` and by `<`, as its square compares with the bound's square; the detector's distance tests (src/gestures/detector.py:38-39, 73-80) use it too |
| Gestures.CompareByDistance | src/gestures/detector.py:38-39 | comparing squared distance with the squared threshold agrees with comparing the true distance, for `<` and for `>` |
| Gestures.ShouldDrag | src/gestures/detector.py:78-81 | definition: held longer than the click time, or moved further than the drag distance, by squared distance; `CompareByDistance` proves the distance test equal to the source's, and `ThresholdStartsDrag` and `StillHoldIsUndecided` give its two outcomes |
| Gestures.PinchStep | src/gestures/detector.py:54-110 | the transition keeps `Consistent`; the new active flag is the pinch reading; a drag start sets dragging from not dragging; a click or drag end happens exactly on release of an active pinch; a drag frame changes nothing |
| Gestures.PinchStartsFromIdle | src/gestures/detector.py:58-63 | a pinch from an inactive state records `now` and the position, clears dragging and reports nothing |
| Gestures.StillHoldIsUndecided | src/gestures/detector.py:78-91 | a held pinch within the time threshold and the distance threshold reports nothing and changes nothing |
| Gestures.ThresholdStartsDrag | src/gestures/detector.py:78-86 | a held pinch past either threshold, not yet dragging, starts the drag |
| Gestures.DragPersists | src/gestures/detector.py:87-88 | once dragging, every held frame reports a drag frame whatever the thresholds say |
| Gestures.ReleaseClassifies | src/gestures/detector.py:94-108 | a release reports a drag end if dragging and a click otherwise, and returns to idle |
| Gestures.IdleStaysIdle | src/gestures/detector.py:110 | no pinch while inactive reports nothing and changes nothing |
| Gestures.Run | src/gestures/detector.py:41-110 | feeding frames one by one gives exactly one event or nothing per frame and keeps `Consistent` |
| Gestures.RunPairsDrags | src/gestures/detector.py:83-108 | over any run from a consistent state, the events are exactly those of a button held down while dragging: drag starts and drag ends alternate, with drag frames only in between |
| Gestures.OneDragStartPerHold | src/gestures/detector.py:83-88 | while the fingers stay pinched, at most one drag start is reported, none if already dragging, and dragging persists |
| Gestures.GestureDetector.constructor | src/gestures/detector.py:18-32 | the given thresholds and the idle state |
| Gestures.GestureDetector.DetectPinchIsEuclidean | src/gestures/detector.py:34-39 | the pinch test is true exactly when the thumb-to-middle distance is below the pinch threshold |
| Gestures.GestureDetector.DetectPinch | src/gestures/detector.py:34-39 | definition: squared thumb-to-middle distance below the squared threshold; `DetectPinchIsEuclidean` proves it equals the Euclidean test `distance < pinch_threshold` |
| Gestures.GestureDetector.UpdatePinchState | src/gestures/detector.py:41-110 | the new state and the event are exactly those of `PinchStep` on the old state, with the pinch reading of the landmarks; a consistent state stays consistent |
| Gestures.GestureDetector.ResetPinch | src/gestures/detector.py:112-117 | any state becomes idle |
| Gestures.GestureDetector.GetIndexPosition | src/gestures/detector.py:121-122 | definition: returns the index fingertip landmark; no contract |
| Gestures.QuickPinchIsClick | src/gestures/detector.py:58-108 | with thresholds 0.2 s and 0.01, a still pinch released after 0.1 s gives nothing, then a click |
| Gestures.LongHoldIsDrag | src/gestures/detector.py:58-108 | a still pinch held past 0.2 s gives nothing, nothing, a drag start, a drag frame and a drag end on release |
| Gestures.QuickMoveIsDrag | src/gestures/detector.py:66-86 | moving 0.02 within 0.05 s starts the drag before the time threshold |
| Gestures.ResetSuppressesDragEnd | src/gestures/detector.py:112-117 | a release while dragging would report a drag end, but after a reset the same release reports nothing |
| Control.Initial | src/controller.py:83-108 | the cursor at the integer halves of the screen size, no baseline, zero velocity |
| Control.InitialInv | src/controller.py:83-87 | the initial state is within the screen margins |
| Control.Gained | src/controller.py:143-144 | definition: a normalized displacement times the gain and the screen dimension; `MoveOutsideDeadzone` (through `Smoothed` and `Limited`) and `RestartFromRest` use it |
| Control.Smoothed | src/controller.py:147-148 | definition: both axes blended from the old smoothed velocity and the gained displacement; `RestartFromRest` states its value after a hand loss and `BlendBetween` bounds each component |
| Control.Blend | src/controller.py:147-148 | definition: the velocity smoothing step, the filter's `Smooth` with weight `s` toward the old velocity; `BlendIsWeightedSum` and `BlendBetween` carry its weighted-sum form and convexity |
| Control.BlendIsWeightedSum | src/controller.py:147-148 | the velocity smoothing step equals the source's weighted sum `s*old + (1-s)*new` |
| Control.BlendBetween | src/controller.py:147-148 | with a smoothing factor in [0, 1] the smoothed velocity lies between the old and new velocity; factor 0 gives the new one, factor 1 the old one |
| Control.ScaleToLimit | src/controller.py:152-155 | scaling by `MAX_SPEED / speed` gives length exactly `MAX_SPEED`, along the same direction |
| Control.Limited | src/controller.py:150-155 | definition: the smoothed velocity after the speed limit, with the speed taken as `sqrt` of its squared length; `MoveOutsideDeadzone` states that it becomes the stored velocity and `LimitBySquares` bounds it |
| Control.LimitSpeed | src/controller.py:151-155 | definition: scales by `MAX_SPEED / speed` when the speed exceeds the limit; `LimitSpeedBounds` and `LimitBySquares` carry its bound, exactness and direction |
| Control.LimitSpeedBounds | src/controller.py:151-155 | the limited velocity has squared length at most `MAX_SPEED²`, equal when the limit fires; it keeps a slow enough velocity unchanged; it is collinear with, and not reversed from, the input; it is never longer |
| Control.LimitBySquares | src/controller.py:151-155 | with the speed taken as the square root, the limit fires exactly when the squared length exceeds `MAX_SPEED²`, and leaves a squared length at most `MAX_SPEED²` in the same direction |
| Control.Clamp | src/controller.py:163-164 | the clamped value is at least the low end, at most the high end when the range is non-empty, and is the value itself when already inside |
| Control.Advanced | src/controller.py:142-167 | definition: gain, blend, limit, integrate, clamp and new baseline; `MoveOutsideDeadzone` states its baseline, velocity, integration and margin properties |
| Control.Move | src/controller.py:129-167 | after every frame both baselines are set |
| Control.MoveBootstraps | src/controller.py:129-132 | the first frame stores the baseline and changes neither cursor nor velocity |
| Control.InDeadzone | src/controller.py:139 | definition: both filtered displacements below the deadzone in absolute value; `DeadzoneChangesNothing` states that such a frame changes nothing and `MoveOutsideDeadzone` covers the rest |
| Control.DeadzoneChangesNothing | src/controller.py:138-140 | a change below the deadzone on both axes leaves cursor, velocity and baseline unchanged |
| Control.MoveOutsideDeadzone | src/controller.py:142-167 | outside the deadzone the baseline becomes the filtered position and the velocity the smoothed, limited one; the cursor moves by it unless a margin stops it; the cursor ends within the margins on every axis at least two margins wide |
| Control.MoveKeepsInv | src/controller.py:129-167 | every frame keeps both baselines set together, and keeps the cursor within the margins |
| Control.HandLost | src/controller.py:240-242 | losing the hand zeroes the velocity and keeps cursor and baseline |
| Control.HandLostKeepsInv | src/controller.py:240-242 | losing the hand keeps the invariant |
| Control.RestartFromRest | src/controller.py:147-148 | after a hand loss, the next smoothed velocity is the `1 - s` share of the new velocity alone |
| Control.Controller.constructor | src/controller.py:83-108 | two fresh, distinct filters with the same parameters, the initial motion state, the given configuration and square root |
| Control.Controller.UpdateCursorFromFinger | src/controller.py:119-169 | each filter advances by its own `Step` at time `now`; the motion state becomes `Move` of the old one at the two filtered values; the speed limit and the margins are kept; the cursor is returned |
| Control.Controller.MoveCursor | src/controller.py:129-169 | the motion state becomes `Move` of the old one, the stored velocity stays within the speed limit, and the cursor is returned |
| Control.Controller.Advance | src/controller.py:142-169 | outside the deadzone the state becomes `Advanced` of the old one: smoothed, limited velocity, integrated and clamped cursor, new baseline |
| Control.Controller.LimitVelocity | src/controller.py:150-155 | the in-place scaling leaves the velocity equal to `LimitSpeed` of the old velocity and its length, within the speed limit, and touches no other field |
| Control.Controller.OnHandLost | src/controller.py:236-242 | the motion state becomes `HandLost` of the old one, and stays valid |

## Left out

- The camera, MediaPipe hand tracking, OpenCV drawing, the FPS counter and the `pyautogui` calls in `Controller.__init__` and `Controller.run` (src/controller.py) are I/O and are not modelled. The screen size, the configuration and the filter parameters are constructor arguments.
- `time.time()` (src/controller.py:121, src/gestures/detector.py:55) is replaced by a caller-supplied `now`. The unused `dt` and `last_time` (src/controller.py:110, 122-123) are dropped.
- The `** 0.5` in the controller's speed (src/controller.py:151) is the constructor argument `sqrt`, constrained only by `IsSqrt`. `math.pi` is the constant `Pi`, the real 3.141592653589793. That is the shortest decimal that prints as `math.pi`, not the exact value of the double, which differs beyond the 16th digit.
- Floating point is modelled as exact reals: no rounding, no overflow, and no `int(...)` conversion of the cursor before it reaches the mouse (src/controller.py:197).
- Hand loss in `run` also calls `reset_pinch` and releases the mouse button (src/controller.py:237-238). The model keeps the detector separate from `Controller`. `ResetPinch` and `ResetSuppressesDragEnd` state what the reset does. The filters are not reset on hand loss, following the code.
- OneEuro.OneEuroFilter.Reset clears the previous value, the derivative and the timestamp but keeps the frequency, as `reset` does in the code (src/filters/one_euro.py:75-79). It does not restore every field of a freshly built filter.
- src/config.py (constants and presets) and src/main.py (start-up banner and error handling) are not part of this model. Their values appear only as concrete thresholds in the scenario lemmas.
- OneEuro.OneEuroFilter.constructor requires a positive frequency, positive minimum and derivative cutoffs and a non-negative speed coefficient (`ParamsOk`), and `Step` and `Run` assume the same. The source accepts any values (src/filters/one_euro.py:8-23). Its `filter` then raises a division error in `alpha` when the frequency or a cutoff is 0, and a negative `beta` or `min_cutoff` can make the cutoff zero or negative. That error path is not modelled. The configured values always meet the requirement. The source's default arguments (src/filters/one_euro.py:8, src/gestures/detector.py:18) are not modelled either: every parameter is passed explicitly.
- Control.ConfigOk: the model requires `maxSpeed >= 0`. The source divides by the measured speed only when it exceeds `MAX_SPEED`, which is 35 in the configuration. The model does not cover a negative limit.
- Control.Move: its own contract says only that the baseline is set. The speed bound after a move is then a class invariant. `WithinSpeed` is part of `Control.Controller.Valid` and is ensured by `Control.Controller.LimitVelocity`, rather than being part of the value-level invariant `Inv`.
- Gestures.GestureDetector.DetectPinch and Gestures.GestureDetector.GetIndexPosition require enough landmarks (more than 12 and more than 8). The hand tracker always delivers 21, and the source would fail with an index error otherwise.
- Gestures.GestureDetector.UpdatePinchState requires a start time while a pinch is active. That holds in every reachable state, and the source would fail with a type error otherwise.
- The filter's output approaches the input strictly on every later step where the previous output differs from the input. The first sample passes through unchanged, and an input equal to the previous output is returned as is. Convergence within a bounded number of frames is not stated.
- The source writes both smoothing steps as a weighted sum. `OneEuro.Smooth` and `Control.Blend` are written as a step from one end toward the other, and `OneEuro.SmoothIsWeightedSum` and `Control.BlendIsWeightedSum` prove the two forms equal.
