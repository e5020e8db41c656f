# Tongue- and head-controlled fighting game: input arbitration core

This project models the part of the game's browser front end that converts
input into player control state:

- **`Keys`** (`keys.dfy`, modelling `static/js/Keys.js`). The shared `keys`
  record is the class `KeyStates`. The player fields the handlers read and
  write are the class `Player`. The keyboard adapter and its
  `fallbackKeysEnabled` toggle are the class `Keyboard`. The two motion
  handlers `handleTongueMovement` and `handleHeadTilt` are methods. Every
  handler has a field-precise `modifies` clause and is proved against a
  function on plain values: `MotionFlags` for the five motion entries of
  `keys`, and `Avatar` for the player's `keys.a/d.pressed`, `lastKey`,
  `velocity.y`, `isAttacking`, `inTheAir` and `moveFactor`. The player's own
  key record may or may not be the shared `keys` object. The frames are
  written per field, so the proofs hold either way.
- **`MotionDetection`** (`motion_detection.dfy`, modelling
  `static/js/motion-detection.js`). The head-pose classifier, the label
  function and the sensitivity step are pure functions. The lowest-point scan
  is a method with a loop, proved against the recursive function
  `ScanLowest`. The tongue classifier is a method proved against
  `TongueDirectionOf`. The module-level `lastTongueDirection`,
  `lastHeadDirection` and `sensitivity` are the fields of the class
  `MotionSession`. It holds the edge-triggered driver `updateGameControls`,
  the classify-then-translate part of `onFaceMeshResults`,
  `adjustSensitivity` and `calibrateMotion`. The driver's effect on the whole
  control state is the function `Translate`. The edge-trigger lemmas are
  proved about `Translate`.

A landmark frame is a `map<int, Point>` with `real` coordinates. A landmark
the frame lacks is absent from the map, which is what the scan's
`landmarks[i] &&` test checks. Sensitivity is an integer count of tenths: `s`
stands for `s / 10`, it starts at 5 and it stays within [1, 10]. The
camera, the face mesh, the canvas and the DOM are not modelled. The face
mesh's result becomes the parameter of `OnFaceMeshResults`. The status
texts become its returned `Status` value. The module-level `keys` and
`player` objects are passed as parameters.

In one frame, both the tongue and the head direction may change. The tongue
handler runs first and the head handler second, exactly as in the code. So a
head tilt decides `lastKey` (`LastKeyTieBreak`). Tongue `left` sets
`keys.a.pressed` but does not release `keys.d.pressed`, and `right` likewise
leaves `a` alone. So a change from `right` straight to `left` holds both
flags, with `lastKey` naming the later direction. The model follows the code
here and `RightThenLeftHoldsBoth` shows it.

## Model

| member | source | states |
|---|---|---|
| `MotionDetection.DetectHeadPose` | static/js/motion-detection.js:102-121 | `left` exactly when the left distance exceeds the right by more than `sensitivity*0.02`; for non-negative sensitivity, `right` exactly when the reverse holds, and `neutral` exactly when the absolute difference is at most the threshold |
| `MotionDetection.HeadTiltConditionsExclusive` | static/js/motion-detection.js:114-117 | the `left` and `right` conditions can never both hold |
| `MotionDetection.HeadPoseBoundaryIsNeutral` | static/js/motion-detection.js:114-120 | equal distances, or a difference exactly equal to the threshold, classify as `neutral` (strict inequalities) |
| `MotionDetection.HeadPoseMirror` | static/js/motion-detection.js:109-120 | exchanging the two cheek landmarks exchanges `left` and `right` and keeps `neutral` |
| `MotionDetection.HeadPoseLeftScenario` | static/js/motion-detection.js:109-116 | distances 0.10 and 0.05 at sensitivity 0.5 give threshold 0.01 and `left` |
| `MotionDetection.ScanLowestIsLowest` | static/js/motion-detection.js:151-156 | the scanned point is at least as low as the start and every present scanned landmark, and is the start or one of them |
| `MotionDetection.LowestMouthPoint` | static/js/motion-detection.js:150-156 | the loop returns the scan's point: y at least `upperLip.y` and at least the y of every present landmark 61..68, and equal to `upperLip` or one of those landmarks |
| `MotionDetection.DirectionFromOffsets` | static/js/motion-detection.js:158-173 | `up` exactly when the vertical offset exceeds its threshold, whatever the horizontal offset; otherwise `right` beats `left`; `neutral` exactly when the vertical offset is within its threshold and the horizontal offset's magnitude is within the horizontal threshold |
| `MotionDetection.TongueDirectionOf` | static/js/motion-detection.js:136-141 | a mouth aspect ratio below `sensitivity*0.3` yields `neutral` |
| `MotionDetection.ClosedMouthIgnoresInnerLandmarks` | static/js/motion-detection.js:136-141 | with the mouth closed, any frame that agrees on the lip and corner landmarks is `neutral`, whatever its inner-mouth landmarks |
| `MotionDetection.MouthOpenScenario` | static/js/motion-detection.js:132-141 | height 0.02 over width 0.10 gives ratio 0.2, which passes the gate 0.15 at sensitivity 0.5 |
| `MotionDetection.DetectTongueMovement` | static/js/motion-detection.js:124-174 | the imperative classifier returns exactly `TongueDirectionOf` of the frame |
| `MotionDetection.GameAction` | static/js/motion-detection.js:243-250 | tongue `left`/`right`/`up` give their movement labels; `Attack 1`/`Attack 2` exactly when the tongue is neutral and the head tilts left/right; `Idle` exactly when both are neutral |
| `MotionDetection.AdjustedSensitivity` | static/js/motion-detection.js:260-265 | one step up exactly on `increase` below 10, one step down exactly on `decrease` above 1, no other change; stays in [1,10]; any other direction string leaves it unchanged |
| `MotionDetection.Translate` | static/js/motion-detection.js:228-240 | the memory then holds the new directions; unchanged directions change nothing; a changed tongue applies the tongue handler, a changed head the head handler, tongue first |
| `MotionDetection.TranslateSecondCallIsNoOp` | static/js/motion-detection.js:228-240 | a second frame with the same directions invokes neither handler: the state is unchanged |
| `MotionDetection.HeldDirectionIsNotReasserted` | static/js/motion-detection.js:230-233 | a keyboard release of `a` while the tongue stays `left` is not undone by the next `left` frame |
| `MotionDetection.LastKeyTieBreak` | static/js/motion-detection.js:228-240 | when both directions change, a head tilt sets `lastKey` to the attack key, and a head return to neutral keeps the tongue's `lastKey` |
| `MotionDetection.TranslateTongueFlags` | static/js/motion-detection.js:230-233 | after a tongue change, at most one tongue flag is pressed, and it names the new direction |
| `MotionDetection.CalibrationRefires` | static/js/motion-detection.js:273-276 | after the memory is reset to neutral, a non-neutral frame runs both handlers again |
| `MotionDetection.MotionSession.constructor` | static/js/motion-detection.js:9-11 | both previous directions start `neutral` and sensitivity at 5 tenths |
| `MotionDetection.MotionSession.UpdateGameControls` | static/js/motion-detection.js:228-240 | the new memory and control state are `Translate` of the old ones |
| `MotionDetection.MotionSession.OnFaceMeshResults` | static/js/motion-detection.js:70-99 | with no face, nothing changes and the status is `NoFace`; otherwise both classifiers run on the first face at the current sensitivity, the translator applies them, and the status carries both directions and `GameAction` |
| `MotionDetection.MotionSession.AdjustSensitivity` | static/js/motion-detection.js:260-265 | the counter becomes `AdjustedSensitivity` of its old value and stays in [1,10]; nothing else changes |
| `MotionDetection.MotionSession.CalibrateMotion` | static/js/motion-detection.js:273-276 | both previous directions become `neutral`; sensitivity is untouched |
| `Keys.Jump` | static/js/Keys.js:44-48 | the velocity becomes `-moveFactor*4` only when not in the air; airborne, nothing changes; no other field changes |
| `Keys.TongueFlags` | static/js/Keys.js:110-132 | at most one tongue flag is pressed, exactly the one the direction names; the head flags are kept |
| `Keys.TongueAvatar` | static/js/Keys.js:116-137 | `left` presses `a` and sets `lastKey` to `a`, leaving `d`; `right` symmetric; `up` jumps only on the ground; `neutral` releases `a` and `d` and keeps `lastKey` and velocity; `isAttacking` never changes |
| `Keys.HeadFlags` | static/js/Keys.js:140-159 | at most one head flag is pressed, exactly the one the direction names; the tongue flags are kept |
| `Keys.HeadAvatar` | static/js/Keys.js:145-159 | `left` or `right` sets `isAttacking` and `lastKey` to the space key; `neutral` leaves all player fields unchanged |
| `Keys.KeyDownAvatar` | static/js/Keys.js:34-79 | unlisted keys, and fallback keys while disabled, change nothing; each bound key has its effect; velocity changes only by a grounded `w` or enabled `ArrowUp` |
| `Keys.KeyUpAvatar` | static/js/Keys.js:86-105 | keyup only ever releases `a` or `d`, never touching velocity, `isAttacking` or `lastKey`; unlisted keys, and fallback keys while disabled, change nothing |
| `Keys.JumpPathsAgree` | static/js/Keys.js:44-72 | tongue `up`, `w` and enabled `ArrowUp` have the same effect; while airborne none of them changes the velocity |
| `Keys.RightThenLeftHoldsBoth` | static/js/Keys.js:117-126 | tongue `right` then `left` leaves both `a` and `d` pressed, with `lastKey` `a` |
| `Keys.KeyUpUndoesKeyDown` | static/js/Keys.js:83-93 | releasing `a` or `d` right after pressing it clears that flag and keeps the rest of what the press did |
| `Keys.KeyStates.constructor` | static/js/Keys.js:1-28 | every entry of the shared record starts released |
| `Keys.Keyboard.constructor` | static/js/Keys.js:163 | the fallback keys start disabled |
| `Keys.Keyboard.ToggleFallbackKeys` | static/js/Keys.js:166-169 | the flag is negated |
| `Keys.ToggleTwice` | static/js/Keys.js:166-168 | toggling twice restores the original flag |
| `Keys.Keyboard.KeyDown` | static/js/Keys.js:32-80 | the player's new state is `KeyDownAvatar` of the old one under the current toggle; only `lastKey`, velocity, `isAttacking` and the player's `a`/`d` may change |
| `Keys.Keyboard.KeyUp` | static/js/Keys.js:85-106 | the player's new state is `KeyUpAvatar` of the old one; only the player's `a`/`d` may change |
| `Keys.HandleTongueMovement` | static/js/Keys.js:110-138 | the motion flags become `TongueFlags` and the player `TongueAvatar` of their old values; head flags, `isAttacking` and `w` cannot change |
| `Keys.HandleHeadTilt` | static/js/Keys.js:140-160 | the motion flags become `HeadFlags` and the player `HeadAvatar` of their old values; tongue flags, velocity and `a`/`d` cannot change |

## Left out

- `initializeMotionDetection` (static/js/motion-detection.js:22-67): face-mesh and camera construction, the CDN file location, the asynchronous camera start and its error report. These are foreign library calls and asynchronous I/O. The same goes for the `isMotionDetectionActive` gate in the camera's frame callback.
- `drawFaceLandmarks` (static/js/motion-detection.js:177-225): canvas drawing with no effect on classification.
- `updateStatus` and the DOM text it writes. `OnFaceMeshResults` returns the three statuses as a `Status` value instead. The status texts of `calibrateMotion` and its two-second timer are left out too.
- The sensitivity-level text (`Low`/`Medium`/`High`) and the console log of `adjustSensitivity`: display only.
- The `load` listener, the `addEventListener` registrations and `event.preventDefault()`. The handler bodies are modelled as methods that take the key name.
- `AdjustedSensitivity`: the model counts tenths exactly. So it does not capture the floating-point drift of `sensitivity += 0.1`. In IEEE double arithmetic, five increases from 0.5 give 0.9999999999999999. That still passes `< 1.0`, so a sixth increase gives 1.0999999999999999. Likewise four decreases give 0.10000000000000003, which passes `> 0.1`, and a fifth gives about 2.8e-17.
- `DetectHeadPose`, `TongueDirectionOf`: coordinates are exact reals, so IEEE rounding and `Math.abs` quirks are not modelled.
- `DetectTongueMovement`: it requires a mouth of positive width. The JavaScript division by zero (Infinity or NaN) is not modelled.
- `OnFaceMeshResults`: it requires the first face to hold every landmark the classifiers read. The JavaScript would throw on a missing nose, cheek, lip or mouth-corner landmark. A missing `multiFaceLandmarks` and an empty one are both the empty sequence.
- Directions are closed enumerations. The handlers' switch statements also accept other strings: such a string clears the flags and does nothing else. No caller here passes one, so that path is not modelled.
- The `Player` constructor stands in for `Fighter.js`, which is not part of this model. `inTheAir` and `moveFactor` are owned by the game's physics and are only read here.
- `main.py`: server plumbing with no logic to model.
