/**
 * The car's firmware: command codes, per-motor directions and the eight
 * LEDC PWM channels that drive the four H-bridge motors.
 *
 * Motor `m` is driven by channel `2m` (IN1) and channel `2m + 1` (IN2);
 * `ledcWrite` sets one channel's duty. The motors are numbered
 * 0 front right, 1 back right, 2 front left, 3 back left.
 */
module Firmware {
  import opened Wrappers

  /** Command codes understood by `processCarMovement`. */
  const STOP := 0
  const UP := 1
  const DOWN := 2
  const LEFT := 3
  const RIGHT := 4
  const UP_LEFT := 5
  const UP_RIGHT := 6
  const DOWN_LEFT := 7
  const DOWN_RIGHT := 8
  const TURN_LEFT := 9
  const TURN_RIGHT := 10
  const HAND_LEFT_RAISED := 11
  const HAND_RIGHT_RAISED := 12
  const HAND_BOTH_RAISED := 13
  const HAND_NONE_RAISED := 14
  const TRACK_LEFT := 15
  const TRACK_RIGHT := 16
  const TRACK_CENTER := 17

  /** Motor numbers. */
  const FRONT_RIGHT_MOTOR := 0
  const BACK_RIGHT_MOTOR := 1
  const FRONT_LEFT_MOTOR := 2
  const BACK_LEFT_MOTOR := 3

  /** Motor directions; `STOP` (0) doubles as "not turning". */
  const FORWARD := 1
  const BACKWARD := -1

  const MAX_SPEED := 255
  const MOTOR_COUNT := 4
  const CHANNEL_COUNT := 8

  /** The shipped calibration: motor 0 is wired backwards. */
  const DIRECTION_CORRECTION: seq<int> := [-1, 1, 1, 1]

  /** The IN1 and IN2 duties `rotateMotor` writes for a corrected direction. */
  function PinDuties(corrected: int): (p: (int, int))
    // IN1 is driven exactly for forward, IN2 exactly for backward, never both
    ensures p.0 == (if corrected == FORWARD then MAX_SPEED else 0)
    ensures p.1 == (if corrected == BACKWARD then MAX_SPEED else 0)
    ensures p.0 == 0 || p.1 == 0
  {
    if corrected == FORWARD then (MAX_SPEED, 0)
    else if corrected == BACKWARD then (0, MAX_SPEED)
    else (0, 0)
  }

  /**
   * The direction each motor (front right, back right, front left, back
   * left) receives for a command code: the table of `processCarMovement`.
   */
  function Directions(code: int): (dirs: seq<int>)
    ensures |dirs| == MOTOR_COUNT
    ensures forall m :: 0 <= m < |dirs| ==> dirs[m] in {FORWARD, BACKWARD, STOP}
  {
    if code == UP || code == HAND_LEFT_RAISED then [FORWARD, FORWARD, FORWARD, FORWARD]
    else if code == DOWN || code == HAND_RIGHT_RAISED then [BACKWARD, BACKWARD, BACKWARD, BACKWARD]
    else if code == LEFT then [FORWARD, BACKWARD, BACKWARD, FORWARD]
    else if code == RIGHT then [BACKWARD, FORWARD, FORWARD, BACKWARD]
    else if code == UP_LEFT then [FORWARD, STOP, STOP, FORWARD]
    else if code == UP_RIGHT then [STOP, FORWARD, FORWARD, STOP]
    else if code == DOWN_LEFT then [STOP, BACKWARD, BACKWARD, STOP]
    else if code == DOWN_RIGHT then [BACKWARD, STOP, STOP, BACKWARD]
    else if code == TURN_LEFT || code == TRACK_LEFT then [FORWARD, FORWARD, BACKWARD, BACKWARD]
    else if code == TURN_RIGHT || code == TRACK_RIGHT then [BACKWARD, BACKWARD, FORWARD, FORWARD]
    else [STOP, STOP, STOP, STOP]
  }

  /** The eight channel duties when motor `m` is turned in `dirs[m]`, corrected by `correction[m]`. */
  function Duties(dirs: seq<int>, correction: seq<int>): (duties: seq<int>)
    requires |dirs| == MOTOR_COUNT && |correction| == MOTOR_COUNT
    ensures |duties| == CHANNEL_COUNT
  {
    var p0 := PinDuties(dirs[0] * correction[0]);
    var p1 := PinDuties(dirs[1] * correction[1]);
    var p2 := PinDuties(dirs[2] * correction[2]);
    var p3 := PinDuties(dirs[3] * correction[3]);
    [p0.0, p0.1, p1.0, p1.1, p2.0, p2.1, p3.0, p3.1]
  }

  /** The PWM state `processCarMovement(code)` leaves behind. */
  function CommandDuties(code: int, correction: seq<int>): (duties: seq<int>)
    requires |correction| == MOTOR_COUNT
    ensures |duties| == CHANNEL_COUNT
    // motor m owns channels 2m and 2m+1, driven by its table direction corrected by its calibration
    ensures forall m :: 0 <= m < MOTOR_COUNT ==>
      (duties[2 * m], duties[2 * m + 1]) == PinDuties(Directions(code)[m] * correction[m])
  {
    Duties(Directions(code), correction)
  }

  /** Eight channels at duty 0. */
  const ALL_STOPPED: seq<int> := [0, 0, 0, 0, 0, 0, 0, 0]

  /** A motor's two inputs are never driven together, whatever the command and calibration. */
  lemma NeverBothPinsDriven(code: int, correction: seq<int>, m: int)
    requires |correction| == MOTOR_COUNT && 0 <= m < MOTOR_COUNT
    ensures CommandDuties(code, correction)[2 * m] == 0 || CommandDuties(code, correction)[2 * m + 1] == 0
    ensures CommandDuties(code, correction)[2 * m] in {0, MAX_SPEED}
    ensures CommandDuties(code, correction)[2 * m + 1] in {0, MAX_SPEED}
  {
  }

  /**
   * With a calibration of +-1 entries, a command leaves motor `m` turning
   * in the commanded direction: forward drives IN1, backward drives IN2
   * after the correction flips it for a reversed motor.
   */
  lemma {:induction false} DutiesFollowCalibration(code: int, correction: seq<int>, m: int)
    requires |correction| == MOTOR_COUNT && 0 <= m < MOTOR_COUNT
    requires forall i :: 0 <= i < MOTOR_COUNT ==> correction[i] in {1, -1}
    ensures var d := Directions(code)[m] * correction[m];
      CommandDuties(code, correction)[2 * m] == (if d == FORWARD then MAX_SPEED else 0)
      && CommandDuties(code, correction)[2 * m + 1] == (if d == BACKWARD then MAX_SPEED else 0)
  {
    var dirs := Directions(code);
    assert m == 0 || m == 1 || m == 2 || m == 3;
  }

  /** Codes that stop the car: `STOP`, both or no hands, `TRACK_CENTER`, and every unknown code. */
  predicate IsStopCode(code: int) {
    code in {STOP, HAND_BOTH_RAISED, HAND_NONE_RAISED, TRACK_CENTER} || code < 0 || code > TRACK_CENTER
  }

  /** Every stopping code sets all eight channels to 0, whatever the calibration; no other code does. */
  lemma StopCodesStopEverything(code: int, correction: seq<int>)
    requires |correction| == MOTOR_COUNT
    requires forall i :: 0 <= i < MOTOR_COUNT ==> correction[i] in {1, -1}
    ensures CommandDuties(code, correction) == ALL_STOPPED <==> IsStopCode(code)
  {
    if !IsStopCode(code) {
      // some motor turns, so one of its inputs is driven
      var dirs := Directions(code);
      // one of the two right-hand motors always turns
      var m := if dirs[0] != STOP then 0 else 1;
      assert dirs[m] != STOP;
      DutiesFollowCalibration(code, correction, m);
      assert CommandDuties(code, correction)[2 * m] != 0 || CommandDuties(code, correction)[2 * m + 1] != 0;
    }
  }

  /** Hand and tracking codes are aliases of the plain driving codes. */
  lemma CommandAliases(correction: seq<int>)
    requires |correction| == MOTOR_COUNT
    ensures CommandDuties(HAND_LEFT_RAISED, correction) == CommandDuties(UP, correction)
    ensures CommandDuties(HAND_RIGHT_RAISED, correction) == CommandDuties(DOWN, correction)
    ensures CommandDuties(TRACK_LEFT, correction) == CommandDuties(TURN_LEFT, correction)
    ensures CommandDuties(TRACK_RIGHT, correction) == CommandDuties(TURN_RIGHT, correction)
  {
    // the aliases share their row of the motor table
    assert Directions(HAND_LEFT_RAISED) == Directions(UP);
    assert Directions(HAND_RIGHT_RAISED) == Directions(DOWN);
    assert Directions(TRACK_LEFT) == Directions(TURN_LEFT);
    assert Directions(TRACK_RIGHT) == Directions(TURN_RIGHT);
  }

  /** `handleHandGesture`'s mapping of the `gesture` field to a code. */
  function GestureCode(gesture: string): (code: int)
    ensures code in {HAND_LEFT_RAISED, HAND_RIGHT_RAISED, HAND_BOTH_RAISED, HAND_NONE_RAISED, STOP}
    ensures code == HAND_LEFT_RAISED <==> gesture == "left"
    ensures code == HAND_RIGHT_RAISED <==> gesture == "right"
    ensures code == HAND_BOTH_RAISED <==> gesture == "both"
    ensures code == HAND_NONE_RAISED <==> gesture == "none"
    ensures code == STOP <==> gesture !in {"left", "right", "both", "none"}
  {
    if gesture == "left" then HAND_LEFT_RAISED
    else if gesture == "right" then HAND_RIGHT_RAISED
    else if gesture == "both" then HAND_BOTH_RAISED
    else if gesture == "none" then HAND_NONE_RAISED
    else STOP
  }

  /** `handlePersonTracking`'s mapping of the `action` field to a code. */
  function TrackingCode(action: string): (code: int)
    ensures code in {TRACK_LEFT, TRACK_RIGHT, TRACK_CENTER, STOP}
    ensures code == TRACK_LEFT <==> action == "track_left"
    ensures code == TRACK_RIGHT <==> action == "track_right"
    ensures code == TRACK_CENTER <==> action == "track_center"
    ensures code == STOP <==> action !in {"track_left", "track_right", "track_center"}
  {
    if action == "track_left" then TRACK_LEFT
    else if action == "track_right" then TRACK_RIGHT
    else if action == "track_center" then TRACK_CENTER
    else STOP
  }

  /** HTTP statuses the two form handlers reply with. */
  const HTTP_OK := 200
  const HTTP_BAD_REQUEST := 400

  /** The firmware's globals: the PWM channels and the direction calibration. */
  class SmartCar {
    /** Duty of each LEDC channel. */
    const pwm: array<int>
    /** `motorDirectionCorrection`. */
    const correction: seq<int>

    ghost predicate Valid() {
      pwm.Length == CHANNEL_COUNT && |correction| == MOTOR_COUNT
    }

    /** The channels start with whatever duties the hardware powers up with. */
    constructor (calibration: seq<int>)
      requires |calibration| == MOTOR_COUNT
      ensures Valid() && fresh(pwm) && correction == calibration
    {
      pwm := new int[CHANNEL_COUNT];
      correction := calibration;
    }

    /** `ledcWrite`: set one channel's duty. */
    method LedcWrite(channel: int, duty: int)
      requires Valid() && 0 <= channel < CHANNEL_COUNT
      modifies pwm
      ensures pwm[..] == old(pwm[..])[channel := duty]
    {
      pwm[channel] := duty;
    }

    /** `rotateMotor`: only the motor's own two channels change. */
    method RotateMotor(motor: int, direction: int)
      requires Valid() && 0 <= motor < MOTOR_COUNT
      modifies pwm
      ensures var p := PinDuties(direction * correction[motor]);
        pwm[..] == old(pwm[..])[2 * motor := p.0][2 * motor + 1 := p.1]
    {
      var correctedDirection := direction * correction[motor];
      if correctedDirection == FORWARD {
        LedcWrite(motor * 2, MAX_SPEED);
        LedcWrite(motor * 2 + 1, 0);
      } else if correctedDirection == BACKWARD {
        LedcWrite(motor * 2, 0);
        LedcWrite(motor * 2 + 1, MAX_SPEED);
      } else {
        LedcWrite(motor * 2, 0);
        LedcWrite(motor * 2 + 1, 0);
      }
    }

    /** `rotateMotorSynchronized`: `preStart` is ignored, so it has the same effect as `rotateMotor`. */
    method RotateMotorSynchronized(motor: int, direction: int, preStart: bool)
      requires Valid() && 0 <= motor < MOTOR_COUNT
      modifies pwm
      ensures var p := PinDuties(direction * correction[motor]);
        pwm[..] == old(pwm[..])[2 * motor := p.0][2 * motor + 1 := p.1]
    {
      var correctedDirection := direction * correction[motor];
      if correctedDirection == FORWARD {
        LedcWrite(motor * 2, MAX_SPEED);
        LedcWrite(motor * 2 + 1, 0);
      } else if correctedDirection == BACKWARD {
        LedcWrite(motor * 2, 0);
        LedcWrite(motor * 2 + 1, MAX_SPEED);
      } else {
        LedcWrite(motor * 2, 0);
        LedcWrite(motor * 2 + 1, 0);
      }
    }

    /** Turn the four motors in order front right, back right, front left, back left. */
    method DriveMotors(frontRight: int, backRight: int, frontLeft: int, backLeft: int)
      requires Valid()
      modifies pwm
      ensures pwm[..] == Duties([frontRight, backRight, frontLeft, backLeft], correction)
    {
      RotateMotor(FRONT_RIGHT_MOTOR, frontRight);
      RotateMotor(BACK_RIGHT_MOTOR, backRight);
      RotateMotor(FRONT_LEFT_MOTOR, frontLeft);
      RotateMotor(BACK_LEFT_MOTOR, backLeft);
    }

    /** `startAllMotorsForward`: front left first (its 50 ms head start is timing only), then the rest. */
    method StartAllMotorsForward()
      requires Valid()
      modifies pwm
      ensures pwm[..] == Duties([FORWARD, FORWARD, FORWARD, FORWARD], correction)
    {
      RotateMotorSynchronized(FRONT_LEFT_MOTOR, FORWARD, true);
      RotateMotorSynchronized(FRONT_RIGHT_MOTOR, FORWARD, false);
      RotateMotorSynchronized(BACK_RIGHT_MOTOR, FORWARD, false);
      RotateMotorSynchronized(BACK_LEFT_MOTOR, FORWARD, false);
    }

    /** `startAllMotorsBackward`. */
    method StartAllMotorsBackward()
      requires Valid()
      modifies pwm
      ensures pwm[..] == Duties([BACKWARD, BACKWARD, BACKWARD, BACKWARD], correction)
    {
      DriveMotors(BACKWARD, BACKWARD, BACKWARD, BACKWARD);
    }

    /** `stopAllMotors`: every channel ends at 0. */
    method StopAllMotors()
      requires Valid()
      modifies pwm
      ensures pwm[..] == ALL_STOPPED
    {
      DriveMotors(STOP, STOP, STOP, STOP);
    }

    /**
     * `processCarMovement` over an already parsed code. Every branch sets all
     * four motors, so the new PWM state depends only on the code and the
     * calibration; in particular applying a code twice equals applying it once.
     */
    method ProcessCarMovement(code: int)
      requires Valid()
      modifies pwm
      ensures pwm[..] == CommandDuties(code, correction)
    {
      if code == UP || code == HAND_LEFT_RAISED {
        StartAllMotorsForward();
      } else if code == DOWN || code == HAND_RIGHT_RAISED {
        StartAllMotorsBackward();
      } else if code == LEFT {
        DriveMotors(FORWARD, BACKWARD, BACKWARD, FORWARD);
      } else if code == RIGHT {
        DriveMotors(BACKWARD, FORWARD, FORWARD, BACKWARD);
      } else if code == UP_LEFT {
        DriveMotors(FORWARD, STOP, STOP, FORWARD);
      } else if code == UP_RIGHT {
        DriveMotors(STOP, FORWARD, FORWARD, STOP);
      } else if code == DOWN_LEFT {
        DriveMotors(STOP, BACKWARD, BACKWARD, STOP);
      } else if code == DOWN_RIGHT {
        DriveMotors(BACKWARD, STOP, STOP, BACKWARD);
      } else if code == TURN_LEFT || code == TRACK_LEFT {
        DriveMotors(FORWARD, FORWARD, BACKWARD, BACKWARD);
      } else if code == TURN_RIGHT || code == TRACK_RIGHT {
        DriveMotors(BACKWARD, BACKWARD, FORWARD, FORWARD);
      } else {
        // STOP, both or no hands, TRACK_CENTER, and the default branch
        StopAllMotors();
      }
    }

    /** `handleHandGesture`: a missing `gesture` field is refused and touches no motor. */
    method HandleHandGesture(gesture: Option<string>) returns (status: int)
      requires Valid()
      modifies pwm
      ensures gesture.None? ==> status == HTTP_BAD_REQUEST && pwm[..] == old(pwm[..])
      ensures gesture.Some? ==> status == HTTP_OK && pwm[..] == CommandDuties(GestureCode(gesture.value), correction)
    {
      if gesture.Some? {
        var g := gesture.value;
        if g == "left" {
          ProcessCarMovement(HAND_LEFT_RAISED);
        } else if g == "right" {
          ProcessCarMovement(HAND_RIGHT_RAISED);
        } else if g == "both" {
          ProcessCarMovement(HAND_BOTH_RAISED);
        } else if g == "none" {
          ProcessCarMovement(HAND_NONE_RAISED);
        } else {
          ProcessCarMovement(STOP);
        }
        status := HTTP_OK;
      } else {
        status := HTTP_BAD_REQUEST;
      }
    }

    /** `handlePersonTracking`: a missing `action` field is refused and touches no motor. */
    method HandlePersonTracking(action: Option<string>) returns (status: int)
      requires Valid()
      modifies pwm
      ensures action.None? ==> status == HTTP_BAD_REQUEST && pwm[..] == old(pwm[..])
      ensures action.Some? ==> status == HTTP_OK && pwm[..] == CommandDuties(TrackingCode(action.value), correction)
    {
      if action.Some? {
        var a := action.value;
        if a == "track_left" {
          ProcessCarMovement(TRACK_LEFT);
        } else if a == "track_right" {
          ProcessCarMovement(TRACK_RIGHT);
        } else if a == "track_center" {
          ProcessCarMovement(TRACK_CENTER);
        } else {
          ProcessCarMovement(STOP);
        }
        status := HTTP_OK;
      } else {
        status := HTTP_BAD_REQUEST;
      }
    }

    /** The disconnect branch of `onWebSocketEvent`: stop the car. */
    method OnWebSocketDisconnect()
      requires Valid()
      modifies pwm
      ensures pwm[..] == ALL_STOPPED
    {
      ProcessCarMovement(STOP);
    }

    /** The `setUpPinModes` loop: each motor in turn is set to STOP, so every channel ends at 0. */
    method SetUpPinModes()
      requires Valid()
      modifies pwm
      ensures pwm[..] == ALL_STOPPED
    {
      var i := 0;
      while i < MOTOR_COUNT
        invariant 0 <= i <= MOTOR_COUNT
        invariant forall c :: 0 <= c < 2 * i ==> pwm[c] == 0
      {
        RotateMotor(i, STOP);
        i := i + 1;
      }
      assert pwm[..] == ALL_STOPPED;
    }
  }
}
