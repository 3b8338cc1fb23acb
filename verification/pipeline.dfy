/**
 * The whole chain from a pose to the car's wheels: the vision side's
 * raised-hand classifier, the controller's mapping to a gesture or a
 * tracking action, and the firmware's decoding of that string into the
 * eight PWM duties. The HTTP request in between carries the string
 * unchanged, so the chain is the composition of the three models.
 */
module Pipeline {
  import opened Wrappers
  import Gestures
  import Controller
  import Firmware

  /** The PWM state the car ends in after `handleHandGesture` accepts `gesture`, with the shipped calibration. */
  function GestureDuties(gesture: string): seq<int> {
    Firmware.CommandDuties(Firmware.GestureCode(gesture), Firmware.DIRECTION_CORRECTION)
  }

  /** The PWM state the car ends in after `handlePersonTracking` accepts `action`, with the shipped calibration. */
  function TrackingDuties(action: string): seq<int> {
    Firmware.CommandDuties(Firmware.TrackingCode(action), Firmware.DIRECTION_CORRECTION)
  }

  /**
   * A detected pose reaches the car as the side the classifier reported
   * (or "none"), always as one of the four hand codes, never as the
   * firmware's unknown-gesture fallback; the car drives forward exactly
   * when only the left arm is raised, backward exactly when only the
   * right arm is, and stands still otherwise.
   */
  lemma RaisedHandReachesCar(kpts: seq<Gestures.Keypoint>, threshold: real)
    requires |kpts| >= Gestures.KEYPOINT_COUNT
    ensures
      var (raised, side) := Gestures.DetectRaisedHand(Some(kpts), threshold);
      var g := Controller.RaisedHandGesture(raised, side);
      var left := Gestures.LeftArmRaised(kpts, threshold);
      var right := Gestures.RightArmRaised(kpts, threshold);
      && g == (if side.Some? then side.value else Controller.GESTURE_NONE)
      && Firmware.GestureCode(g) != Firmware.STOP
      && (GestureDuties(g) == Firmware.CommandDuties(Firmware.UP, Firmware.DIRECTION_CORRECTION) <==> left && !right)
      && (GestureDuties(g) == Firmware.CommandDuties(Firmware.DOWN, Firmware.DIRECTION_CORRECTION) <==> !left && right)
      && (GestureDuties(g) == Firmware.ALL_STOPPED <==> left == right)
  {
    var (raised, side) := Gestures.DetectRaisedHand(Some(kpts), threshold);
    var g := Controller.RaisedHandGesture(raised, side);
    var corr := Firmware.DIRECTION_CORRECTION;
    Firmware.StopCodesStopEverything(Firmware.GestureCode(g), corr);
    Firmware.CommandAliases(corr);
    // forward, backward and stopped are three different duty patterns
    assert Firmware.CommandDuties(Firmware.UP, corr)[1] != Firmware.CommandDuties(Firmware.DOWN, corr)[1];
    assert Firmware.CommandDuties(Firmware.UP, corr) != Firmware.ALL_STOPPED;
    assert Firmware.CommandDuties(Firmware.DOWN, corr) != Firmware.ALL_STOPPED;
  }

  /**
   * A tracking decision reaches the car as one of the three tracking
   * codes; the car spins left exactly when the person is more than the
   * threshold left of the frame centre, right exactly when more than the
   * threshold right of it, and stands still otherwise (always so while
   * tracking is disabled).
   */
  lemma TrackingReachesCar(enabled: bool, threshold: int, center: (int, int), frame: (int, int))
    requires 0 <= threshold
    ensures
      var action := Controller.TrackingAdjustment(enabled, threshold, center, frame);
      var offset := center.0 - frame.0 / 2;
      && Firmware.TrackingCode(action) in {Firmware.TRACK_LEFT, Firmware.TRACK_RIGHT, Firmware.TRACK_CENTER}
      && var spinLeft := Firmware.CommandDuties(Firmware.TURN_LEFT, Firmware.DIRECTION_CORRECTION);
      && var spinRight := Firmware.CommandDuties(Firmware.TURN_RIGHT, Firmware.DIRECTION_CORRECTION);
      && (TrackingDuties(action) == spinLeft <==> enabled && offset < -threshold)
      && (TrackingDuties(action) == spinRight <==> enabled && offset > threshold)
      && (TrackingDuties(action) == Firmware.ALL_STOPPED <==> !enabled || -threshold <= offset <= threshold)
  {
    var action := Controller.TrackingAdjustment(enabled, threshold, center, frame);
    var corr := Firmware.DIRECTION_CORRECTION;
    Firmware.StopCodesStopEverything(Firmware.TrackingCode(action), corr);
    Firmware.CommandAliases(corr);
    // spinning left, spinning right and stopped are three different duty patterns
    assert Firmware.CommandDuties(Firmware.TURN_LEFT, corr)[1] != Firmware.CommandDuties(Firmware.TURN_RIGHT, corr)[1];
    assert Firmware.CommandDuties(Firmware.TURN_LEFT, corr) != Firmware.ALL_STOPPED;
    assert Firmware.CommandDuties(Firmware.TURN_RIGHT, corr) != Firmware.ALL_STOPPED;
  }

  /**
   * The two strings `emergency_stop` sends both stop every motor once the
   * firmware accepts them, whatever the +-1 calibration.
   */
  lemma EmergencyStopStopsCar(correction: seq<int>)
    requires |correction| == Firmware.MOTOR_COUNT
    requires forall i :: 0 <= i < Firmware.MOTOR_COUNT ==> correction[i] in {1, -1}
    ensures Firmware.CommandDuties(Firmware.GestureCode(Controller.GESTURE_NONE), correction) == Firmware.ALL_STOPPED
    ensures Firmware.CommandDuties(Firmware.TrackingCode(Controller.TRACK_CENTER), correction) == Firmware.ALL_STOPPED
  {
    Firmware.StopCodesStopEverything(Firmware.HAND_NONE_RAISED, correction);
    Firmware.StopCodesStopEverything(Firmware.TRACK_CENTER, correction);
  }
}
