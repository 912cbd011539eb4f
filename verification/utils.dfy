/**
 The geometry helpers of orion/utils.py: the pixel bounding box of a hand and
 its area, and the elbow-to-wrist arm vector read from the body pose for a
 mirrored (selfie) frame.
 */
module Utils {
  import opened Landmarks

  // ---------------------------------------------------------------------------
  // Bounding box
  // ---------------------------------------------------------------------------

  /** `(min_x, min_y, max_x, max_y)` in pixel space. */
  datatype Box = Box(minX: real, minY: real, maxX: real, maxY: real)

  /** One landmark de-normalised without truncation: `lm.x * width` and `lm.y * height`. */
  function ScaledX(l: Landmark, width: nat): real { l.x * width as real }
  function ScaledY(l: Landmark, height: nat): real { l.y * height as real }

  /** The raw x- and y-coordinates of a landmark list. */
  function Xs(hand: seq<Landmark>): (xs: seq<real>)
    ensures |xs| == |hand|
  {
    seq(|hand|, i requires 0 <= i < |hand| => hand[i].x)
  }

  function Ys(hand: seq<Landmark>): (ys: seq<real>)
    ensures |ys| == |hand|
  {
    seq(|hand|, i requires 0 <= i < |hand| => hand[i].y)
  }

  /** Every value of `s` multiplied by a frame dimension `k`. */
  function Scale(s: seq<real>, k: nat): (r: seq<real>)
    ensures |r| == |s|
  {
    seq(|s|, i requires 0 <= i < |s| => s[i] * k as real)
  }

  /** `[lm.x * width for lm in landmarks]` */
  function ScaledXs(hand: seq<Landmark>, width: nat): (xs: seq<real>)
    ensures |xs| == |hand|
    ensures forall i :: 0 <= i < |hand| ==> xs[i] == ScaledX(hand[i], width)
  {
    seq(|hand|, i requires 0 <= i < |hand| => ScaledX(hand[i], width))
  }

  /** `[lm.y * height for lm in landmarks]` */
  function ScaledYs(hand: seq<Landmark>, height: nat): (ys: seq<real>)
    ensures |ys| == |hand|
    ensures forall i :: 0 <= i < |hand| ==> ys[i] == ScaledY(hand[i], height)
  {
    seq(|hand|, i requires 0 <= i < |hand| => ScaledY(hand[i], height))
  }

  /** Python's `min` of a non-empty list: a lower bound that is itself an element. */
  function Least(s: seq<real>): (m: real)
    requires |s| > 0
    ensures forall i :: 0 <= i < |s| ==> m <= s[i]
    ensures exists i :: 0 <= i < |s| && s[i] == m
  {
    if |s| == 1 then s[0]
    else
      var rest := Least(s[1..]);
      assert forall i :: 1 <= i < |s| ==> s[i] == s[1..][i - 1];
      if s[0] <= rest then s[0] else rest
  }

  /** Python's `max` of a non-empty list: an upper bound that is itself an element. */
  function Greatest(s: seq<real>): (m: real)
    requires |s| > 0
    ensures forall i :: 0 <= i < |s| ==> s[i] <= m
    ensures exists i :: 0 <= i < |s| && s[i] == m
  {
    if |s| == 1 then s[0]
    else
      var rest := Greatest(s[1..]);
      assert forall i :: 1 <= i < |s| ==> s[i] == s[1..][i - 1];
      if rest <= s[0] then s[0] else rest
  }

  /**
   `compute_bounding_box`: the smallest box holding every scaled landmark.
   An empty landmark list makes Python's `min` raise, so it is excluded.
   */
  function BoundingBox(hand: seq<Landmark>, width: nat, height: nat): (b: Box)
    requires |hand| > 0
    ensures b.minX <= b.maxX && b.minY <= b.maxY
    ensures forall i :: 0 <= i < |hand| ==>
      && b.minX <= ScaledX(hand[i], width) <= b.maxX
      && b.minY <= ScaledY(hand[i], height) <= b.maxY
    ensures exists i :: 0 <= i < |hand| && ScaledX(hand[i], width) == b.minX
    ensures exists i :: 0 <= i < |hand| && ScaledX(hand[i], width) == b.maxX
    ensures exists i :: 0 <= i < |hand| && ScaledY(hand[i], height) == b.minY
    ensures exists i :: 0 <= i < |hand| && ScaledY(hand[i], height) == b.maxY
  {
    var xs := ScaledXs(hand, width);
    var ys := ScaledYs(hand, height);
    var b := Box(Least(xs), Least(ys), Greatest(xs), Greatest(ys));
    assert forall i :: 0 <= i < |hand| ==> xs[i] == ScaledX(hand[i], width) && ys[i] == ScaledY(hand[i], height);
    b
  }

  /** `b` holds every landmark of `hand` once scaled to the frame. */
  predicate Encloses(b: Box, hand: seq<Landmark>, width: nat, height: nat)
  {
    forall i :: 0 <= i < |hand| ==>
      && b.minX <= ScaledX(hand[i], width) <= b.maxX
      && b.minY <= ScaledY(hand[i], height) <= b.maxY
  }

  /** The bounding box lies inside every box that encloses the hand: it is the least enclosing box. */
  lemma BoundingBoxIsSmallest(hand: seq<Landmark>, width: nat, height: nat, other: Box)
    requires |hand| > 0
    requires Encloses(other, hand, width, height)
    ensures Encloses(BoundingBox(hand, width, height), hand, width, height)
    ensures
      var b := BoundingBox(hand, width, height);
      other.minX <= b.minX && b.maxX <= other.maxX && other.minY <= b.minY && b.maxY <= other.maxY
  {
  }

  /** `compute_box_area`: width times height of the box. */
  function BoxArea(b: Box): (area: real)
    ensures b.minX <= b.maxX && b.minY <= b.maxY ==> area >= 0.0
    ensures area == 0.0 <==> b.minX == b.maxX || b.minY == b.maxY
  {
    var w := b.maxX - b.minX;
    var h := b.maxY - b.minY;
    assert w * h == 0.0 ==> w == 0.0 || h == 0.0 by {
      if w != 0.0 && h != 0.0 {
        assert w * h != 0.0 by { NonZeroProduct(w, h); }
      }
    }
    w * h
  }

  /** A product of two non-zero reals is non-zero. */
  lemma NonZeroProduct(a: real, b: real)
    requires a != 0.0 && b != 0.0
    ensures a * b != 0.0
  {
  }

  /** Every element of `s` is the same value. */
  predicate AllEqual(s: seq<real>)
  {
    forall i, j :: 0 <= i < |s| && 0 <= j < |s| ==> s[i] == s[j]
  }

  /** The area of a hand's box is never negative. */
  lemma BoundingBoxAreaNonNegative(hand: seq<Landmark>, width: nat, height: nat)
    requires |hand| > 0
    ensures BoxArea(BoundingBox(hand, width, height)) >= 0.0
  {
  }

  /** The area of a hand's box is zero exactly when all scaled landmarks share an x or all share a y. */
  lemma BoundingBoxAreaZeroIff(hand: seq<Landmark>, width: nat, height: nat)
    requires |hand| > 0
    ensures BoxArea(BoundingBox(hand, width, height)) == 0.0 <==>
      AllEqual(ScaledXs(hand, width)) || AllEqual(ScaledYs(hand, height))
  {
    var b := BoundingBox(hand, width, height);
    var xs, ys := ScaledXs(hand, width), ScaledYs(hand, height);
    if AllEqual(xs) {
      var i :| 0 <= i < |hand| && ScaledX(hand[i], width) == b.minX;
      var j :| 0 <= j < |hand| && ScaledX(hand[j], width) == b.maxX;
      assert xs[i] == xs[j];
    }
    if AllEqual(ys) {
      var i :| 0 <= i < |hand| && ScaledY(hand[i], height) == b.minY;
      var j :| 0 <= j < |hand| && ScaledY(hand[j], height) == b.maxY;
      assert ys[i] == ys[j];
    }
  }

  /** For a frame of positive size, scaling changes nothing: a zero area means all raw x or all raw y coincide. */
  lemma BoundingBoxAreaZeroIffRaw(hand: seq<Landmark>, width: nat, height: nat)
    requires |hand| > 0 && width > 0 && height > 0
    ensures BoxArea(BoundingBox(hand, width, height)) == 0.0 <==>
      (forall i, j :: 0 <= i < |hand| && 0 <= j < |hand| ==> hand[i].x == hand[j].x) ||
      (forall i, j :: 0 <= i < |hand| && 0 <= j < |hand| ==> hand[i].y == hand[j].y)
  {
    BoundingBoxAreaZeroIff(hand, width, height);
    ScaledXsFlatIff(hand, width);
    ScaledYsFlatIff(hand, height);
  }

  lemma ScaledXsFlatIff(hand: seq<Landmark>, width: nat)
    requires width > 0
    ensures AllEqual(ScaledXs(hand, width)) <==>
      forall i, j :: 0 <= i < |hand| && 0 <= j < |hand| ==> hand[i].x == hand[j].x
  {
    ScaledAllEqualIff(Xs(hand), width);
    assert ScaledXs(hand, width) == Scale(Xs(hand), width) by {
      forall i | 0 <= i < |hand| ensures ScaledXs(hand, width)[i] == Scale(Xs(hand), width)[i] {
        assert Xs(hand)[i] == hand[i].x;
      }
    }
    assert forall i :: 0 <= i < |hand| ==> Xs(hand)[i] == hand[i].x;
  }

  lemma ScaledYsFlatIff(hand: seq<Landmark>, height: nat)
    requires height > 0
    ensures AllEqual(ScaledYs(hand, height)) <==>
      forall i, j :: 0 <= i < |hand| && 0 <= j < |hand| ==> hand[i].y == hand[j].y
  {
    ScaledAllEqualIff(Ys(hand), height);
    assert ScaledYs(hand, height) == Scale(Ys(hand), height) by {
      forall i | 0 <= i < |hand| ensures ScaledYs(hand, height)[i] == Scale(Ys(hand), height)[i] {
        assert Ys(hand)[i] == hand[i].y;
      }
    }
    assert forall i :: 0 <= i < |hand| ==> Ys(hand)[i] == hand[i].y;
  }

  /** Scaling by a positive factor neither creates nor destroys coincidences. */
  lemma ScaledAllEqualIff(s: seq<real>, k: nat)
    requires k > 0
    ensures AllEqual(Scale(s, k)) <==> AllEqual(s)
  {
    var r := Scale(s, k);
    forall i, j | 0 <= i < |s| && 0 <= j < |s|
      ensures r[i] == r[j] <==> s[i] == s[j]
    {
      ScalingIsInjective(s[i], s[j], k as real);
    }
  }

  /** Multiplying by a positive factor keeps distinct values distinct. */
  lemma ScalingIsInjective(a: real, b: real, k: real)
    requires k > 0.0
    ensures a * k == b * k <==> a == b
  {
    if a * k == b * k {
      assert (a - b) * k == 0.0;
      if a != b { NonZeroProduct(a - b, k); }
    }
  }

  // ---------------------------------------------------------------------------
  // Arm vector
  // ---------------------------------------------------------------------------

  /** Pose landmark indices of one arm. */
  datatype ArmIndices = ArmIndices(shoulder: nat, elbow: nat, wrist: nat)

  /** The pose estimator's left and right arm: shoulder, elbow and wrist. */
  const LeftArm: ArmIndices := ArmIndices(11, 13, 15)
  const RightArm: ArmIndices := ArmIndices(12, 14, 16)

  /** Pose landmarks needed to read either arm; the highest index read is 16. */
  const PoseLandmarkMinimum: nat := 17

  /** Python's `str.lower`, restricted to ASCII letters. */
  function LowerChar(c: char): char
  {
    if 'A' <= c <= 'Z' then (c as int + 32) as char else c
  }

  /** Lower-cases a string character by character, keeping its length. */
  function Lower(s: string): (r: string)
    ensures |r| == |s|
    ensures forall i :: 0 <= i < |s| ==> r[i] == LowerChar(s[i])
  {
    seq(|s|, i requires 0 <= i < |s| => LowerChar(s[i]))
  }

  /** `side.lower() == 'left'` */
  predicate IsLeftLabel(side: string): (r: bool)
    ensures r ==> |side| == 4
  {
    Lower(side) == "left"
  }

  /** The reported side spells "left" in any mix of letter case. */
  predicate SpellsLeft(side: string)
  {
    && |side| == 4
    && (side[0] == 'l' || side[0] == 'L')
    && (side[1] == 'e' || side[1] == 'E')
    && (side[2] == 'f' || side[2] == 'F')
    && (side[3] == 't' || side[3] == 'T')
  }

  /** The label test is exactly a case-insensitive spelling of "left". */
  lemma IsLeftLabelIff(side: string)
    ensures IsLeftLabel(side) <==> SpellsLeft(side)
  {
    if SpellsLeft(side) {
      assert Lower(side) == "left";
    }
    if IsLeftLabel(side) {
      assert |side| == 4;
      assert Lower(side)[0] == 'l' && Lower(side)[1] == 'e';
      assert Lower(side)[2] == 'f' && Lower(side)[3] == 't';
    }
  }

  /**
   The side-to-arm table. The frame is mirrored before detection, so a hand
   reported as "left" belongs to the estimator's right arm, and every other
   label to its left arm.
   */
  function ArmFor(side: string): (arm: ArmIndices)
    ensures arm == RightArm || arm == LeftArm
  {
    if IsLeftLabel(side) then RightArm else LeftArm
  }

  /** The table in full: any case-spelling of "left" picks 12/14/16, anything else 11/13/15. */
  lemma ArmForTable(side: string)
    ensures SpellsLeft(side) ==> ArmFor(side) == ArmIndices(12, 14, 16)
    ensures !SpellsLeft(side) ==> ArmFor(side) == ArmIndices(11, 13, 15)
  {
    IsLeftLabelIff(side);
  }

  /** The arm choice is blind to letter case. */
  lemma ArmForIgnoresCase(a: string, b: string)
    requires Lower(a) == Lower(b)
    ensures ArmFor(a) == ArmFor(b)
  {
  }

  /** `(shoulder, elbow, wrist, vector)` in pixels. */
  datatype ArmPose = ArmPose(shoulder: Point, elbow: Point, wrist: Point, vector: Point)

  /** `compute_arm_vector` */
  function ComputeArmVector(pose: seq<Landmark>, width: nat, height: nat, side: string): (a: ArmPose)
    requires |pose| >= PoseLandmarkMinimum
    ensures a.wrist.x == a.elbow.x + a.vector.x && a.wrist.y == a.elbow.y + a.vector.y
    ensures a.shoulder == ToPixel(pose[ArmFor(side).shoulder], width, height)
    ensures a.elbow == ToPixel(pose[ArmFor(side).elbow], width, height)
    ensures a.wrist == ToPixel(pose[ArmFor(side).wrist], width, height)
  {
    var arm := ArmFor(side);
    var shoulder := ToPixel(pose[arm.shoulder], width, height);
    var elbow := ToPixel(pose[arm.elbow], width, height);
    var wrist := ToPixel(pose[arm.wrist], width, height);
    ArmPose(shoulder, elbow, wrist, Point(wrist.x - elbow.x, wrist.y - elbow.y))
  }

  /** The shoulder is reported but plays no part in the vector, the elbow or the wrist. */
  lemma ArmVectorIgnoresShoulder(pose: seq<Landmark>, shoulder: Landmark, width: nat, height: nat, side: string)
    requires |pose| >= PoseLandmarkMinimum
    ensures
      var a := ComputeArmVector(pose, width, height, side);
      var moved := ComputeArmVector(pose[ArmFor(side).shoulder := shoulder], width, height, side);
      moved.elbow == a.elbow && moved.wrist == a.wrist && moved.vector == a.vector
  {
  }

  /** The pose with the estimator's left and right arm landmarks exchanged. */
  function SwapArms(pose: seq<Landmark>): (swapped: seq<Landmark>)
    requires |pose| >= PoseLandmarkMinimum
    ensures |swapped| == |pose|
  {
    pose[11 := pose[12]][12 := pose[11]]
        [13 := pose[14]][14 := pose[13]]
        [15 := pose[16]][16 := pose[15]]
  }

  /** Mirroring is symmetric: a "left" hand on one pose reads the same arm as any other label on the pose with its arms exchanged. */
  lemma ArmVectorMirrorSymmetric(pose: seq<Landmark>, width: nat, height: nat, left: string, other: string)
    requires |pose| >= PoseLandmarkMinimum
    requires IsLeftLabel(left) && !IsLeftLabel(other)
    ensures ComputeArmVector(pose, width, height, left) == ComputeArmVector(SwapArms(pose), width, height, other)
  {
    var swapped := SwapArms(pose);
    assert swapped[11] == pose[12] && swapped[13] == pose[14] && swapped[15] == pose[16];
  }

  /** With a normalised arm, each component of the vector is bounded by the frame size. */
  lemma ArmVectorBounded(pose: seq<Landmark>, width: nat, height: nat, side: string)
    requires |pose| >= PoseLandmarkMinimum
    requires Normalised(pose[ArmFor(side).elbow]) && Normalised(pose[ArmFor(side).wrist])
    ensures -(width as int) <= ComputeArmVector(pose, width, height, side).vector.x <= width
    ensures -(height as int) <= ComputeArmVector(pose, width, height, side).vector.y <= height
  {
    ToPixelInFrame(pose[ArmFor(side).elbow], width, height);
    ToPixelInFrame(pose[ArmFor(side).wrist], width, height);
  }
}
