# Orion gesture aiming: a Dafny model of the geometry and session record

Orion aims a device by following a user's arm. A camera frame is mirrored
(selfie view), and a hand estimator and a body-pose estimator report
normalised landmarks. A hand "activates" aiming by raising the index and
middle fingers while curling the ring and pinky fingers. The arm that hand
belongs to is then read from the pose as an elbow-to-wrist vector.

This project models the pure, deterministic part of that pipeline:

- `Landmarks` (`landmarks.dfy`): normalised landmarks, integer pixel points,
  and Python's `int()` as truncation toward zero (`Trunc`).
- `Gestures` (`gestures.dfy`): `detect_activation_gesture` from
  `orion/gestures.py`. There is also a reference description of the gesture
  as a pattern of finger poses (raised / lowered / level).
- `Vision` (`vision.dfy`): `process_gesture`. It repeats the
  gesture test inline and returns the floor-halved pixel midpoint of the
  index and middle fingertips, or `None`.
- `Utils` (`utils.dfy`): `compute_bounding_box`, `compute_box_area` and
  `compute_arm_vector` from `orion/utils.py`. This includes the mirrored
  side-to-landmark table: a hand labelled "left" in any letter case reads
  pose landmarks 12/14/16, and any other label reads 11/13/15.
- `Tracker` (`tracker.dfy`): the `Tracker` record of `orion/tracker.py`. It
  has two modes, constants `STATE_IDLE = 0` and `STATE_TRACKING = 1`, and
  five optional fields, plus its constructor and `reset`.
- `Wrappers` (`wrappers.dfy`): `Option`, standing in for Python's `None`.

Coordinates are Dafny `real`s. Frame width and height are `nat`s, because
the source takes them from an image shape. Python's `//` by 2 is floor
division; Dafny's Euclidean `/` agrees with it for a positive divisor.

## Model

| member | source | states |
|---|---|---|
| Landmarks.Trunc | orion/utils.py:38-40 | `int()` on a float truncates toward zero: for non-negative input the result is the largest integer not above it, and for negative input the smallest integer not below it |
| Landmarks.ToPixel | orion/vision.py:26-27 | `(int(lm.x * width), int(lm.y * height))`: each pixel coordinate is the scaled coordinate truncated toward zero, so it lies within one pixel of it, below it for non-negative input and above it for negative input |
| Landmarks.ToPixelInFrame | orion/vision.py:26-27 | a landmark inside the unit square de-normalises to a pixel inside `[0, width] × [0, height]` |
| Gestures.DetectActivationGesture | orion/gestures.py:1-12 | the gesture holds exactly when the four finger poses are the pattern raised, raised, lowered, lowered (index, middle, ring, pinky) |
| Gestures.GestureIff | orion/gestures.py:8-12 | the gesture holds iff y8 < y7, y12 < y11, y16 > y15 and y20 > y19, all strictly |
| Gestures.LevelFingerRejects | orion/gestures.py:8-11 | a fingertip level with its joint counts as neither extended nor curled, so the gesture fails |
| Gestures.GestureDependsOnlyOnFingerHeights | orion/gestures.py:7-12 | two hands that agree on the y-coordinates of landmarks 7, 8, 11, 12, 15, 16, 19 and 20 get the same verdict, whatever their x-coordinates and other landmarks are |
| Vision.Midpoint | orion/vision.py:29-30 | the floor-halved sum: twice the midpoint is the coordinate sum or one less, and the midpoint lies between the two inputs on each axis |
| Vision.MidpointSymmetric | orion/vision.py:29-30 | the midpoint does not depend on the order of the two fingertips |
| Vision.ProcessGesture | orion/vision.py:7-33 | returns a point iff `detect_activation_gesture` accepts the same hand, and `None` otherwise; the point is the floor-halved sum of the index and middle fingertip pixels |
| Vision.AimPointBetweenFingertips | orion/vision.py:26-31 | the aim point lies between the two fingertip pixels on each axis |
| Vision.AimPointInFrame | orion/vision.py:26-31 | with normalised fingertips, the aim point lies in `[0, width] × [0, height]` |
| Vision.SwappedFingertipsSameAim | orion/vision.py:26-31 | exchanging the index and middle fingertip landmarks leaves the aim point unchanged whenever both hands pass the test |
| Utils.ScaledXs | orion/utils.py:2 | `[lm.x * width for lm in …]`: the list has one entry per landmark, and entry i is landmark i's x times the width |
| Utils.ScaledYs | orion/utils.py:3 | `[lm.y * height for lm in …]`: the list has one entry per landmark, and entry i is landmark i's y times the height |
| Utils.Least | orion/utils.py:4 | `min` of a non-empty list is a lower bound of the list and is one of its elements |
| Utils.Greatest | orion/utils.py:4 | `max` of a non-empty list is an upper bound of the list and is one of its elements |
| Utils.BoundingBox | orion/utils.py:1-4 | the box is well ordered, contains every scaled landmark, and each of its four edges is touched by some landmark (it is tight) |
| Utils.BoundingBoxIsSmallest | orion/utils.py:1-4 | the bounding box encloses the hand and lies inside every other box that encloses it |
| Utils.BoxArea | orion/utils.py:6-8 | the area of a well-ordered box is non-negative, and the area is zero exactly when the box has zero width or zero height |
| Utils.BoundingBoxAreaNonNegative | orion/utils.py:1-8 | the area of a hand's bounding box is never negative |
| Utils.BoundingBoxAreaZeroIff | orion/utils.py:1-8 | a hand's box has zero area exactly when all scaled landmarks share an x or all share a y |
| Utils.BoundingBoxAreaZeroIffRaw | orion/utils.py:1-8 | for a frame of positive size, the same holds for the raw normalised coordinates |
| Utils.Lower | orion/utils.py:29 | `str.lower`: the model keeps the length and lower-cases each character; only ASCII letters are folded, which is exact for the `== 'left'` test because no non-ASCII character lower-cases to l, e, f or t |
| Utils.IsLeftLabel | orion/utils.py:29 | `side.lower() == 'left'`; a label it accepts has exactly four characters |
| Utils.IsLeftLabelIff | orion/utils.py:29 | `side.lower() == 'left'` holds exactly for the four-letter spellings of "left" in any mix of case |
| Utils.ArmFor | orion/utils.py:29-36 | the arm is always one of the estimator's two arms |
| Utils.ArmForTable | orion/utils.py:29-36 | the side-to-landmark table: any case-spelling of "left" selects shoulder/elbow/wrist 12/14/16, and every other string, "Right" included, selects 11/13/15 |
| Utils.ArmForIgnoresCase | orion/utils.py:29 | labels that agree after lower-casing ("Left", "LEFT", "left") select the same arm |
| Utils.ComputeArmVector | orion/utils.py:11-42 | shoulder, elbow and wrist are the selected landmarks truncated to pixels, and wrist = elbow + vector componentwise |
| Utils.ArmVectorIgnoresShoulder | orion/utils.py:38-41 | moving the selected shoulder landmark changes neither the elbow, the wrist nor the vector |
| Utils.ArmVectorMirrorSymmetric | orion/utils.py:29-41 | a "left" label on a pose gives exactly the result of any other label on the same pose with its left and right arm landmarks exchanged |
| Utils.ArmVectorBounded | orion/utils.py:39-41 | with a normalised elbow and wrist, the vector's components are bounded by the frame's width and height |
| Tracker.StateCode | orion/tracker.py:3-4 | the stored state is always one of the constants 0 (`STATE_IDLE`) and 1 (`STATE_TRACKING`) |
| Tracker.StateOfCode | orion/tracker.py:3-4 | an integer names a mode exactly when it is one of those two constants |
| Tracker.StateCodeRoundTrip | orion/tracker.py:3-4 | every mode survives the trip through its constant, and distinct modes have distinct constants |
| Tracker.NewTracker | orion/tracker.py:12-18 | a new tracker is Idle (code 0), and its activation time, lost time, hand, box area and side are all `None` |
| Tracker.Reset | orion/tracker.py:20-26 | from any session, including Tracking with every field set, `reset` gives Idle with all five optional fields `None` |
| Tracker.ClearedIsUnique | orion/tracker.py:12-26 | there is exactly one cleared session |
| Tracker.ResetIsFresh | orion/tracker.py:12-26 | a reset session equals a freshly constructed one |
| Tracker.ResetIdempotent | orion/tracker.py:20-26 | resetting twice equals resetting once |
| Tracker.ResetFixesFresh | orion/tracker.py:12-26 | resetting a fresh session changes nothing |

## Left out

- The camera loop in `main.py` is left out: capture, display, key handling and estimator construction are I/O and process lifecycle.
- `process_frame`, `draw_hand_annotations` and `main` in `orion/vision.py` are left out. They do colour conversion, flipping, the estimator call, drawing and a debug print, all through foreign libraries.
- `draw_arm` in `orion/utils.py` is left out because it only renders with OpenCV.
- The `image` parameter of `process_gesture` is left out because the function never reads it.
- The hand and pose estimators are black boxes. Their output is a sequence of `(x, y)` landmarks; the z-coordinate and visibility scores are never read by the modelled code.
- The activation and deactivation holds, the area-stability tolerance, the loss-of-pose timeout and the choice of the largest gesture-passing hand are left out. None of this logic exists in `orion/tracker.py`, which imports `time` but never uses it. `main.py:19` calls a four-argument `process_frame` that is not part of this model, and the two-argument `process_frame` of `orion/vision.py` never touches a `Tracker`. The model therefore invents no mode transitions beyond `reset`.
- Floating point is modelled as exact reals. IEEE-754 rounding, NaN and infinities are out of scope.
- Utils.Lower, Utils.IsLeftLabelIff: `str.lower` is modelled on ASCII letters only. Python's Unicode case mapping of other characters ("É" to "é", the two-code-point lower case of "İ") is not modelled; the `== 'left'` verdict is unaffected.
- Utils.BoundingBox: an empty landmark list is excluded by precondition, because Python's `min` raises on it. The source does not handle that case.
- Gestures.DetectActivationGesture, Vision.ProcessGesture and Utils.ComputeArmVector require enough landmarks for the highest index they read (20, 20 and 16). The source would raise `IndexError` otherwise.
- `Tracker.trackedHand` holds a hand's landmark sequence. The source stores the estimator's opaque landmark object there, and only `None` is ever written to it in the modelled code.

## Notes on the code's behaviour

- `compute_arm_vector` accepts any side string. Anything that is not a spelling of "left" selects pose landmarks 11/13/15.
- Exchanging a "left" label for another label, and the two arms for each other, gives an identical arm pose. No coordinate is negated (`Utils.ArmVectorMirrorSymmetric`).
- `Tracker` has a `tracked_hand` field, and the model keeps it.
- Nothing forces a recorded box area to be positive. `compute_box_area` returns 0 for a degenerate box (`Utils.BoundingBoxAreaZeroIff`).
