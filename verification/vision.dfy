/**
 `process_gesture` of orion/vision.py: the activation test, repeated inline,
 followed by the pixel midpoint of the index and middle fingertips, which is
 the aim point.
 */
module Vision {
  import opened Wrappers
  import opened Landmarks
  import opened Gestures

  function Min(a: int, b: int): int { if a <= b then a else b }
  function Max(a: int, b: int): int { if a <= b then b else a }

  /**
   Python's `(a + b) // 2` on each axis. `//` floors; Dafny's `/` is Euclidean,
   which agrees with flooring for the positive divisor 2.
   */
  function Midpoint(a: Point, b: Point): (m: Point)
    ensures 2 * m.x <= a.x + b.x <= 2 * m.x + 1
    ensures 2 * m.y <= a.y + b.y <= 2 * m.y + 1
    ensures Min(a.x, b.x) <= m.x <= Max(a.x, b.x)
    ensures Min(a.y, b.y) <= m.y <= Max(a.y, b.y)
  {
    Point((a.x + b.x) / 2, (a.y + b.y) / 2)
  }

  /** The midpoint does not depend on which fingertip comes first. */
  lemma MidpointSymmetric(a: Point, b: Point)
    ensures Midpoint(a, b) == Midpoint(b, a)
  {
  }

  /** `process_gesture`: the aim point when the gesture holds, `None` otherwise. */
  function ProcessGesture(hand: seq<Landmark>, width: nat, height: nat): (r: Option<Point>)
    requires |hand| >= HandLandmarkCount
    ensures r.Some? <==> DetectActivationGesture(hand)
    ensures r.Some? ==>
      var indexTip := ToPixel(hand[IndexTip], width, height);
      var middleTip := ToPixel(hand[MiddleTip], width, height);
      && 2 * r.value.x <= indexTip.x + middleTip.x <= 2 * r.value.x + 1
      && 2 * r.value.y <= indexTip.y + middleTip.y <= 2 * r.value.y + 1
  {
    var indexExtended := hand[IndexTip].y < hand[IndexJoint].y;
    var middleExtended := hand[MiddleTip].y < hand[MiddleJoint].y;
    var ringCurled := hand[RingTip].y > hand[RingJoint].y;
    var pinkyCurled := hand[PinkyTip].y > hand[PinkyJoint].y;
    if indexExtended && middleExtended && ringCurled && pinkyCurled then
      var indexTipPixel := ToPixel(hand[IndexTip], width, height);
      var middleTipPixel := ToPixel(hand[MiddleTip], width, height);
      Some(Midpoint(indexTipPixel, middleTipPixel))
    else
      None
  }

  /** The aim point lies between the two fingertip pixels on each axis. */
  lemma AimPointBetweenFingertips(hand: seq<Landmark>, width: nat, height: nat)
    requires |hand| >= HandLandmarkCount
    requires ProcessGesture(hand, width, height).Some?
    ensures
      var p := ProcessGesture(hand, width, height).value;
      var indexTip := ToPixel(hand[IndexTip], width, height);
      var middleTip := ToPixel(hand[MiddleTip], width, height);
      && Min(indexTip.x, middleTip.x) <= p.x <= Max(indexTip.x, middleTip.x)
      && Min(indexTip.y, middleTip.y) <= p.y <= Max(indexTip.y, middleTip.y)
  {
  }

  /** With normalised fingertips the aim point stays inside the frame. */
  lemma AimPointInFrame(hand: seq<Landmark>, width: nat, height: nat)
    requires |hand| >= HandLandmarkCount
    requires Normalised(hand[IndexTip]) && Normalised(hand[MiddleTip])
    requires ProcessGesture(hand, width, height).Some?
    ensures 0 <= ProcessGesture(hand, width, height).value.x <= width
    ensures 0 <= ProcessGesture(hand, width, height).value.y <= height
  {
    ToPixelInFrame(hand[IndexTip], width, height);
    ToPixelInFrame(hand[MiddleTip], width, height);
  }

  /** `hand` with the index and middle fingertip landmarks exchanged. */
  function SwapFingertips(hand: seq<Landmark>): (swapped: seq<Landmark>)
    requires |hand| >= HandLandmarkCount
    ensures |swapped| == |hand|
  {
    hand[IndexTip := hand[MiddleTip]][MiddleTip := hand[IndexTip]]
  }

  /** Exchanging the two fingertips moves no aim point: whenever both hands pass the test they aim at the same pixel. */
  lemma SwappedFingertipsSameAim(hand: seq<Landmark>, width: nat, height: nat)
    requires |hand| >= HandLandmarkCount
    requires DetectActivationGesture(hand) && DetectActivationGesture(SwapFingertips(hand))
    ensures ProcessGesture(SwapFingertips(hand), width, height) == ProcessGesture(hand, width, height)
  {
    var swapped := SwapFingertips(hand);
    assert swapped[IndexTip] == hand[MiddleTip] && swapped[MiddleTip] == hand[IndexTip];
    MidpointSymmetric(ToPixel(hand[IndexTip], width, height), ToPixel(hand[MiddleTip], width, height));
  }
}
