# Gesture engine of the hand-gesture scroller, in Dafny

This project models `GestureProcessor`, the gesture recognition state machine
of the hand-gesture scroller. Each camera frame it receives the hands the
landmark detector found and the frame width. Each hand is a list of
`[id, x, y]` pixel landmarks. It answers with at most one action and a status:

- `MODE_VOL` / `MODE_SCROLL`: switch mode;
- `NEXT` / `PREVIOUS`: page down / page up;
- `SET_VOLUME(level)`: set the volume to `level`.

Between frames it keeps four pieces of state:

- the mode, `SCROLL` or `VOLUME`;
- `prev_y`, the earlier height of the primary hand, used as the baseline for a scroll;
- the time of the last gesture;
- a smoothed volume level in [0, 1].

Files:

- `gesture_engine.dfy`, module `GestureEngine`: the data model (`Landmark`,
  `Hand`, `Mode`, `Action`, `Status`), the finger, pinch and slider
  computations, and the pure per-frame function `Step` over a `Session`
  value. It also holds the class `GestureProcessor`. Its fields are the
  source's fields, and its method `ProcessGestures` goes through the frame
  step by step with early returns, as the source does. It is proved to leave
  exactly the session that `Step` computes, and to return the same action and
  status.
- `gesture_properties.dfy`, module `GestureProperties`: what the engine
  promises, as lemmas about `Step` and about `Run`, which folds `Step` over a
  sequence of frames. It ends with concrete scenarios.

The clock reading is the parameter `now`. The program's floats are Dafny
`real`s.

## Where the code departs from its own stated intent

The model follows the code in both cases. A lemma pins down each behaviour.

- The comment at gesture_engine.py:174 says "Keep alive if hands are
  present". Yet a frame that sets the volume returns (gesture_engine.py:165)
  before that refresh (gesture_engine.py:175), although it has two hands.
  So after more than 2 s of pinching, the first frame without hands reverts
  to SCROLL at once (`GestureProperties.LongPinchThenRevert`).
- In SCROLL, a frame without hands forgets the baseline
  (gesture_engine.py:127-129), so the next hand only records a new one. The
  VOLUME→SCROLL fallback also happens on a frame without hands, but it leaves
  `prev_y` as it was before VOLUME mode (gesture_engine.py:169-172). The next
  frame with a hand can then scroll against that old baseline
  (`GestureProperties.BaselineSurvivesVolumeMode`, from a new processor with
  an increasing clock).

## Model

| member | source | states |
|---|---|---|
| `GestureEngine.GestureProcessor.constructor` | gesture_engine.py:45-54 | a new processor has the given threshold and cooldown, mode SCROLL, no baseline, gesture time 0, volume 0.5, and a volume level in [0, 1] |
| `GestureEngine.GestureProcessor.FingersUp` | gesture_engine.py:56-80 | exactly four flags, each 0 or 1; flag i is 1 iff tip y < joint y for the pairs (8,6), (12,10), (16,14), (20,18); the result is `[1,1,1,0]` iff `IsVolumeTrigger` holds, the definition of the pattern tested at gesture_engine.py:101 (index, middle, ring up, pinky down) |
| `GestureProperties.PinchIffLengthBelowThreshold` | gesture_engine.py:82-87 | comparing the squared thumb-to-index distance with 1600 gives the same answer as comparing the Euclidean length with 40 px |
| `GestureEngine.GestureProcessor.IsPinching` | gesture_engine.py:82-87 | the squared thumb-to-index test; a pinch keeps both offsets under 40 px, and tips within 28 px in both directions always pinch |
| `GestureEngine.AnyTrigger` | gesture_engine.py:96-104 | the scan over the frame's hands finds the trigger iff some hand has index, middle and ring up and pinky down |
| `GestureEngine.SliderPosition` | gesture_engine.py:145-157 | the hands' midpoint mapped onto the active zone (20% margin on each side): always in [0, 1], 0 left of the zone, 1 right of it, and proportional to the distance from the left edge inside it |
| `GestureEngine.Smoothed` | gesture_engine.py:159-162 | one smoothing step lies between the old level and the target and shrinks the distance to the target by the factor 0.8 |
| `GestureEngine.Percent` | gesture_engine.py:164 | for a non-negative level, the truncated percentage: at most the exact percentage and less than one below it; between 0 and 100 for a level in [0, 1] |
| `GestureEngine.ScrollStep` | gesture_engine.py:110-126 | scroll detection on the primary hand: at most one of `NEXT`/`PREVIOUS`; mode and volume unchanged; outside the cooldown the baseline becomes `cy`, within it the baseline is kept; a scroll happens only outside the cooldown and sets the gesture time to `now`, no scroll keeps it |
| `GestureEngine.VolumeStep` | gesture_engine.py:131-175 | the VOLUME branch: never changes the baseline; emits only None, `MODE_SCROLL` or `SET_VOLUME`; leaves VOLUME exactly with `MODE_SCROLL`; changes the level only with `SET_VOLUME`, which carries the new level and keeps the gesture time; keeps a level in [0, 1] in [0, 1] |
| `GestureEngine.Step` | gesture_engine.py:89-177 | one frame: the mode changes iff `MODE_VOL` or `MODE_SCROLL` is emitted, `MODE_VOL` only from SCROLL to VOLUME, `MODE_SCROLL` only back; the level changes only with `SET_VOLUME`, which carries the new level; a level in [0, 1] stays in [0, 1] |
| `GestureEngine.GestureProcessor.ProcessGestures` | gesture_engine.py:89-177 | the new fields, the action and the status are exactly those of `Step` on the old fields; the volume level stays in [0, 1] |
| `GestureProperties.RunKeepsVolumeInRange` | gesture_engine.py:139-165 | any sequence of frames keeps the volume level in [0, 1] |
| `GestureProperties.ReachableVolumeInRange` | gesture_engine.py:53 | starting from a new processor's 0.5, the volume level is in [0, 1] after any sequence of frames |
| `GestureProperties.TriggerSwitchesToVolume` | gesture_engine.py:95-104 | in SCROLL, a trigger on any hand gives VOLUME, gesture time `now` and `MODE_VOL`, whatever the cooldown; baseline and volume unchanged |
| `GestureProperties.EnterVolumeIffTrigger` | gesture_engine.py:95-104 | in SCROLL, the mode becomes VOLUME iff some hand shows the trigger, and `MODE_VOL` is emitted iff that happens |
| `GestureProperties.LeaveVolumeIffIdle` | gesture_engine.py:167-172 | in VOLUME, the mode becomes SCROLL iff there are no hands and more than 2 s have passed since the last gesture; `MODE_SCROLL` is emitted iff that happens, and only the mode changes |
| `GestureProperties.ActionsBelongToMode` | gesture_engine.py:94-177 | SCROLL emits only None, `MODE_VOL`, `NEXT`, `PREVIOUS`; VOLUME emits only None, `MODE_SCROLL`, `SET_VOLUME` |
| `GestureProperties.NoHandForgetsBaseline` | gesture_engine.py:127-129 | in SCROLL with no hands: baseline unset, no action, status NO HAND, mode and gesture time unchanged |
| `GestureProperties.CooldownFreezesScroll` | gesture_engine.py:113-126 | in SCROLL with a hand, no trigger and `now - last <= cooldown`: no action, status COOLDOWN, and the whole session, baseline included, unchanged |
| `GestureProperties.ScrollFiresOnLargeMove` | gesture_engine.py:113-124 | in SCROLL, with a hand, no hand showing the trigger, and outside the cooldown, with `dy = cy - prev_y`: `NEXT` iff `dy < -threshold`, `PREVIOUS` iff not that and `dy > threshold`, nothing iff `|dy| <= threshold`; status SCROLL DOWN with `NEXT`, SCROLL UP with `PREVIOUS`, "MODE: SCROLL" otherwise; the baseline becomes `cy`, and the gesture time becomes `now` only when something fires |
| `GestureProperties.FirstSightRecordsBaseline` | gesture_engine.py:114-124 | in SCROLL, with a hand, no hand showing the trigger, outside the cooldown and without a baseline: the frame only records `cy` as the baseline |
| `GestureProperties.GapThenNoScroll` | gesture_engine.py:107-129 | after a frame without hands in SCROLL, the next frame with a hand, where no hand shows the trigger, fires no scroll and keeps the gesture time |
| `GestureProperties.SetVolumeIffTwoPinches` | gesture_engine.py:139-165 | in VOLUME, `SET_VOLUME` is emitted iff there are exactly two hands and both pinch; it carries the smoothed level of the slider position and the status shows its percentage; only the level changes, so the gesture time is not refreshed |
| `GestureProperties.HandsKeepVolumeAlive` | gesture_engine.py:169-175 | in VOLUME, hands present without a volume change: no action, the gesture time becomes `now`, the mode stays VOLUME |
| `GestureProperties.SetVolumeMovesTowardHands` | gesture_engine.py:145-162 | the new volume level lies between the old level and the slider position |
| `GestureProperties.ScrollScenario` | gesture_engine.py:107-124 | primary-hand heights 300, 300, 260 outside the cooldown: the third frame emits `NEXT` |
| `GestureProperties.CooldownScenario` | gesture_engine.py:113-126 | repeating the move within the cooldown emits nothing and keeps the baseline |
| `GestureProperties.VolumeScenario` | gesture_engine.py:145-165 | hands at x = 200 and 600 in an 800 px frame give slider position 0.5, so a level of 0.5 stays 0.5 (status 50%) |
| `GestureProperties.IdleScenario` | gesture_engine.py:167-175 | 2.5 s without hands reverts to SCROLL; a hand seen in between prevents the revert |
| `GestureProperties.LongPinchThenRevert` | gesture_engine.py:162-175 | a volume-setting frame leaves the gesture time alone, so a later empty frame can revert at once |
| `GestureProperties.BaselineSurvivesVolumeMode` | gesture_engine.py:169-172 | from a new processor: a hand at y = 300, the trigger, 2.5 s without hands, then a hand at y = 200; the fallback keeps baseline 300 and the last frame emits `NEXT` |

## Left out

- `HandTracker` (gesture_engine.py:5-42) wraps the MediaPipe detector and cv2. Its output is the `hands` input.
- `GestureEngine.GestureProcessor.ProcessGestures`: requires every hand of the frame to have at least 21 landmarks, including hands the source never reads. Examples are the second hand of a VOLUME frame whose first hand does not pinch (gesture_engine.py:143), any hand of a one- or three-hand VOLUME frame (gesture_engine.py:139, 169-175), and the hands after a triggering one in SCROLL (gesture_engine.py:98-104). In a VOLUME frame with two pinching hands, the source reads only positions 4, 8 and 9 of each (gesture_engine.py:84-85, 145-146). The caller guarantees the precondition: it passes the output of `find_all_positions` (gui.py:157, gesture_engine.py:31-42), which lists every landmark the detector gives for each hand.
- The clock read `time.time()` (gesture_engine.py:90) is the parameter `now`.
- Floating point:
  - Levels, margins and times are exact reals. The rounding of `* 0.2`, `/ 2`, the division by the active width, the smoothing and the `* 100` of the percentage is not modelled.
  - `GestureEngine.Percent`: the truncated percentage of the exact level. The source's float product can land just below an integer (0.29 * 100 is 28.999999999999996), so the source can show one percent less than the model.
  - The square root in `is_pinching` is replaced by a comparison of squared integer distances. The lemma `GestureProperties.PinchIffLengthBelowThreshold` shows that this is exact for the real length.
- The status text is the datatype `Status`, one case per message. The `SET_VOLUME` message carries only the truncated integer percentage; the string formatting is left out.
- The mode is the enumeration `Mode`, not a string. The source's fall-through for a state that is neither "SCROLL" nor "VOLUME" cannot happen.
- `last_vol_change_time` is a field that the constructor sets and nothing reads, as in the source.
- `GestureEngine.GestureProcessor.ProcessGestures`: requires a positive frame width on every frame. The source divides by the active width only on a volume-setting frame, and fails there for width 0. Camera frames always have a positive width.
- gui.py and main.py are not part of this model. They hold the Tk window, the webcam loop, drawing the volume bar, the background threads, the `pyautogui` key presses and the system volume calls, all of which are I/O, UI or concurrency.
