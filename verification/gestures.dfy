/**
 * The raised-hand classifier of the vision side (`GestureDetector.detect_raised_hand`).
 *
 * The pose model delivers one row per COCO keypoint: an x and a y pixel
 * coordinate and a confidence. The classifier only compares these numbers
 * with `<` and `>`, so they are modelled as reals.
 */
module Gestures {
  import opened Wrappers

  /** One row of the pose model's output. */
  datatype Keypoint = Keypoint(x: real, y: real, conf: real)

  /** COCO keypoint indices the classifier looks at. */
  const LEFT_SHOULDER := 5
  const RIGHT_SHOULDER := 6
  const LEFT_ELBOW := 7
  const RIGHT_ELBOW := 8
  const LEFT_WRIST := 9
  const RIGHT_WRIST := 10

  /** Rows the pose model produces per person; fewer means "no usable pose". */
  const KEYPOINT_COUNT := 17

  /** Hand sides reported by the classifier. */
  const SIDE_LEFT := "left"
  const SIDE_RIGHT := "right"
  const SIDE_BOTH := "both"

  /** A keypoint is used only when its confidence is strictly above the threshold. */
  predicate Visible(k: Keypoint, threshold: real) {
    k.conf > threshold
  }

  /**
   * One arm counts as raised when its shoulder, elbow and wrist are all
   * visible and the wrist is above the elbow, which is above the shoulder
   * (image y grows downwards).
   */
  predicate ArmRaised(shoulder: Keypoint, elbow: Keypoint, wrist: Keypoint, threshold: real) {
    && Visible(shoulder, threshold) && Visible(elbow, threshold) && Visible(wrist, threshold)
    && wrist.y < elbow.y && elbow.y < shoulder.y
  }

  predicate LeftArmRaised(kpts: seq<Keypoint>, threshold: real)
    requires |kpts| >= KEYPOINT_COUNT
  {
    ArmRaised(kpts[LEFT_SHOULDER], kpts[LEFT_ELBOW], kpts[LEFT_WRIST], threshold)
  }

  predicate RightArmRaised(kpts: seq<Keypoint>, threshold: real)
    requires |kpts| >= KEYPOINT_COUNT
  {
    ArmRaised(kpts[RIGHT_SHOULDER], kpts[RIGHT_ELBOW], kpts[RIGHT_WRIST], threshold)
  }

  /**
   * `detect_raised_hand`: whether a hand is raised and which one.
   * The local `raised_hand` is first set by the left-arm test and then
   * overwritten by the right-arm test, as `detect_raised_hand` does.
   */
  function DetectRaisedHand(keypoints: Option<seq<Keypoint>>, threshold: real): (r: (bool, Option<string>))
    // absent or short keypoint arrays are rejected up front
    ensures keypoints.None? || |keypoints.value| < KEYPOINT_COUNT ==> r == (false, None)
    // the flag is exactly "a side was found"
    ensures r.0 <==> r.1.Some?
    ensures r.1.Some? ==> r.1.value in {SIDE_LEFT, SIDE_RIGHT, SIDE_BOTH}
    // which side, in terms of the two arm tests
    ensures keypoints.Some? && |keypoints.value| >= KEYPOINT_COUNT ==>
      var left := LeftArmRaised(keypoints.value, threshold);
      var right := RightArmRaised(keypoints.value, threshold);
      && (r.1 == Some(SIDE_BOTH) <==> left && right)
      && (r.1 == Some(SIDE_LEFT) <==> left && !right)
      && (r.1 == Some(SIDE_RIGHT) <==> !left && right)
      && (r.1 == None <==> !left && !right)
  {
    if keypoints.None? || |keypoints.value| < KEYPOINT_COUNT then
      (false, None)
    else
      var kpts := keypoints.value;
      var afterLeft: Option<string> := if LeftArmRaised(kpts, threshold) then Some(SIDE_LEFT) else None;
      var raisedHand: Option<string> :=
        if RightArmRaised(kpts, threshold) then
          (if afterLeft == Some(SIDE_LEFT) then Some(SIDE_BOTH) else Some(SIDE_RIGHT))
        else afterLeft;
      (raisedHand.Some?, raisedHand)
  }

  /** Two keypoint arrays that agree on every y and every confidence. */
  predicate SameHeightsAndConfidences(a: seq<Keypoint>, b: seq<Keypoint>) {
    |a| == |b| && forall i :: 0 <= i < |a| ==> a[i].y == b[i].y && a[i].conf == b[i].conf
  }

  /** x coordinates never influence the classification. */
  lemma IgnoresHorizontalPosition(a: seq<Keypoint>, b: seq<Keypoint>, threshold: real)
    requires SameHeightsAndConfidences(a, b)
    ensures DetectRaisedHand(Some(a), threshold) == DetectRaisedHand(Some(b), threshold)
  {
    if |a| >= KEYPOINT_COUNT {
      assert LeftArmRaised(a, threshold) == LeftArmRaised(b, threshold);
      assert RightArmRaised(a, threshold) == RightArmRaised(b, threshold);
    }
  }

  /** A keypoint whose confidence equals the threshold is treated as invisible, so its arm is not raised. */
  lemma ThresholdConfidenceIsInvisible(kpts: seq<Keypoint>, threshold: real)
    requires |kpts| >= KEYPOINT_COUNT
    requires kpts[LEFT_WRIST].conf == threshold && kpts[RIGHT_ELBOW].conf == threshold
    ensures DetectRaisedHand(Some(kpts), threshold) == (false, None)
  {
  }
}
