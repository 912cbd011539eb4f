/**
 The activation gesture of orion/gestures.py: index and middle fingers raised,
 ring and pinky fingers curled, judged from landmark heights alone.
 */
module Gestures {
  import opened Landmarks

  /** Landmarks in one hand observation; the highest index the test reads is 20. */
  const HandLandmarkCount: nat := 21

  /** Hand landmark indices: each fingertip and the joint just below it. */
  const IndexJoint: nat := 7
  const IndexTip: nat := 8
  const MiddleJoint: nat := 11
  const MiddleTip: nat := 12
  const RingJoint: nat := 15
  const RingTip: nat := 16
  const PinkyJoint: nat := 19
  const PinkyTip: nat := 20

  /** Where a fingertip sits relative to the joint below it (y grows downward). */
  datatype FingerPose = Raised | Lowered | Level

  /** The three-way comparison of a tip's height against its joint's. */
  function PoseOf(tip: Landmark, joint: Landmark): FingerPose
  {
    if tip.y < joint.y then Raised
    else if joint.y < tip.y then Lowered
    else Level
  }

  /** The poses of index, middle, ring and pinky, in that order. */
  function FingerPoses(hand: seq<Landmark>): (poses: seq<FingerPose>)
    requires |hand| >= HandLandmarkCount
    ensures |poses| == 4
  {
    [ PoseOf(hand[IndexTip], hand[IndexJoint]),
      PoseOf(hand[MiddleTip], hand[MiddleJoint]),
      PoseOf(hand[RingTip], hand[RingJoint]),
      PoseOf(hand[PinkyTip], hand[PinkyJoint]) ]
  }

  /** The gesture as a pattern of finger poses. */
  const ActivationPattern: seq<FingerPose> := [Raised, Raised, Lowered, Lowered]

  /** `detect_activation_gesture`: four strict height comparisons, all of which must hold. */
  function DetectActivationGesture(hand: seq<Landmark>): (r: bool)
    requires |hand| >= HandLandmarkCount
    ensures r <==> FingerPoses(hand) == ActivationPattern
  {
    var indexExtended := hand[IndexTip].y < hand[IndexJoint].y;
    var middleExtended := hand[MiddleTip].y < hand[MiddleJoint].y;
    var ringCurled := hand[RingTip].y > hand[RingJoint].y;
    var pinkyCurled := hand[PinkyTip].y > hand[PinkyJoint].y;
    indexExtended && middleExtended && ringCurled && pinkyCurled
  }

  /** A tip level with its joint is neither extended nor curled, so the gesture fails. */
  lemma LevelFingerRejects(hand: seq<Landmark>, finger: nat)
    requires |hand| >= HandLandmarkCount
    requires finger < 4
    requires FingerPoses(hand)[finger] == Level
    ensures !DetectActivationGesture(hand)
  {
    assert FingerPoses(hand)[finger] != ActivationPattern[finger];
  }

  /** The four comparisons made explicit: the gesture holds exactly when all four are strict in the right direction. */
  lemma GestureIff(hand: seq<Landmark>)
    requires |hand| >= HandLandmarkCount
    ensures DetectActivationGesture(hand) <==>
      && hand[8].y < hand[7].y
      && hand[12].y < hand[11].y
      && hand[16].y > hand[15].y
      && hand[20].y > hand[19].y
  {
  }

  /** Two hands whose eight tip and joint heights agree. */
  predicate SameFingerHeights(a: seq<Landmark>, b: seq<Landmark>)
    requires |a| >= HandLandmarkCount && |b| >= HandLandmarkCount
  {
    && a[IndexJoint].y == b[IndexJoint].y && a[IndexTip].y == b[IndexTip].y
    && a[MiddleJoint].y == b[MiddleJoint].y && a[MiddleTip].y == b[MiddleTip].y
    && a[RingJoint].y == b[RingJoint].y && a[RingTip].y == b[RingTip].y
    && a[PinkyJoint].y == b[PinkyJoint].y && a[PinkyTip].y == b[PinkyTip].y
  }

  /** The verdict reads only those eight heights: every x-coordinate and every other landmark is irrelevant. */
  lemma GestureDependsOnlyOnFingerHeights(a: seq<Landmark>, b: seq<Landmark>)
    requires |a| >= HandLandmarkCount && |b| >= HandLandmarkCount
    requires SameFingerHeights(a, b)
    ensures DetectActivationGesture(a) == DetectActivationGesture(b)
  {
  }
}
