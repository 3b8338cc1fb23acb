/**
 * The vision side's car controller (`SmartCarController`).
 *
 * It turns gesture and tracking decisions into HTTP POSTs to the car and
 * suppresses a repeated value that arrives within `min_command_interval`
 * of the last accepted command. The clock reading (`time.time()`) and the
 * outcome of each POST (HTTP 200, or any other status or a transport
 * exception) are parameters; every POST the controller hands to the
 * transport is recorded in the ghost trace `posts`.
 */
module Controller {
  import opened Wrappers

  /** Values of the `gesture` form field. */
  const GESTURE_NONE := "none"
  const GESTURE_LEFT := "left"
  const GESTURE_RIGHT := "right"
  const GESTURE_BOTH := "both"

  /** Values of the `action` form field. */
  const TRACK_LEFT := "track_left"
  const TRACK_RIGHT := "track_right"
  const TRACK_CENTER := "track_center"

  /** Initial settings of a new controller. */
  const DEFAULT_MIN_COMMAND_INTERVAL: real := 0.1
  const DEFAULT_FRAME_CENTER_THRESHOLD := 50

  /** The two endpoints: `/hand-gesture` and `/person-tracking`. */
  datatype Channel = GestureChannel | TrackingChannel {
    function Other(): Channel {
      if this == GestureChannel then TrackingChannel else GestureChannel
    }
  }

  /** One POST handed to the transport. */
  datatype Post = Post(channel: Channel, value: string)

  /**
   * What the send methods remember between calls: the last value accepted
   * on each channel and ONE timestamp shared by both channels.
   */
  datatype Debounce = Debounce(lastGesture: Option<string>, lastTrackingAction: Option<string>, lastCommandTime: real)
  {
    function LastValue(ch: Channel): Option<string> {
      if ch == GestureChannel then lastGesture else lastTrackingAction
    }
  }

  /** The duplicate test at the top of both send methods. */
  predicate Suppressed(d: Debounce, interval: real, ch: Channel, value: string, now: real) {
    d.LastValue(ch) == Some(value) && now - d.lastCommandTime < interval
  }

  /** What one send does: its return value, whether a POST was made, and the state afterwards. */
  datatype Outcome = Outcome(ok: bool, posted: bool, after: Debounce)

  /**
   * `send_hand_gesture` / `send_tracking_command` as a state transition.
   * `httpOk` is true when the POST came back with status 200.
   */
  function Send(d: Debounce, interval: real, ch: Channel, value: string, now: real, httpOk: bool): (r: Outcome)
    // a POST is made exactly when the duplicate test fails
    ensures r.posted <==> !Suppressed(d, interval, ch, value, now)
    // a value different from the channel's last one always reaches the transport
    ensures d.LastValue(ch) != Some(value) ==> r.posted
    // a suppressed send reports success and changes nothing
    ensures !r.posted ==> r.ok && r.after == d
    // a failed POST reports failure and changes nothing
    ensures r.posted && !httpOk ==> !r.ok && r.after == d
    // an accepted POST records the value on its own channel and restarts the shared window
    ensures r.posted && httpOk ==>
      && r.ok
      && r.after.LastValue(ch) == Some(value)
      && r.after.LastValue(ch.Other()) == d.LastValue(ch.Other())
      && r.after.lastCommandTime == now
  {
    if Suppressed(d, interval, ch, value, now) then
      Outcome(true, false, d)
    else if !httpOk then
      Outcome(false, true, d)
    else if ch == GestureChannel then
      Outcome(true, true, d.(lastGesture := Some(value), lastCommandTime := now))
    else
      Outcome(true, true, d.(lastTrackingAction := Some(value), lastCommandTime := now))
  }

  /** The POSTs one send adds to the trace. */
  function Posted(r: Outcome, ch: Channel, value: string): seq<Post> {
    if r.posted then [Post(ch, value)] else []
  }

  /** One call of a send method, with the clock reading and transport outcome it met. */
  datatype Call = Call(channel: Channel, value: string, now: real, httpOk: bool)

  /** The state after a series of sends. */
  function FinalState(d: Debounce, interval: real, calls: seq<Call>): Debounce
    decreases |calls|
  {
    if calls == [] then d
    else
      var c := calls[0];
      FinalState(Send(d, interval, c.channel, c.value, c.now, c.httpOk).after, interval, calls[1..])
  }

  /** The POSTs made by a series of sends. */
  function Posts(d: Debounce, interval: real, calls: seq<Call>): seq<Post>
    decreases |calls|
  {
    if calls == [] then []
    else
      var c := calls[0];
      var r := Send(d, interval, c.channel, c.value, c.now, c.httpOk);
      Posted(r, c.channel, c.value) + Posts(r.after, interval, calls[1..])
  }

  /** Clock readings that never go backwards and stay inside [start, start + interval). */
  predicate WithinWindow(calls: seq<Call>, start: real, interval: real) {
    && (forall i :: 0 <= i < |calls| ==> start <= calls[i].now < start + interval)
    && (forall i, j :: 0 <= i < j < |calls| ==> calls[i].now <= calls[j].now)
  }

  /**
   * Once `v` is the last accepted value on `ch`, repeating `v` on `ch` within
   * the window never reaches the transport, whatever is sent on the other
   * channel meanwhile: an accepted send there only moves the shared
   * timestamp forward, which keeps `ch` suppressed.
   */
  lemma {:induction false} RepeatsSuppressedWithinWindow(d: Debounce, interval: real, ch: Channel, v: string, calls: seq<Call>)
    requires d.LastValue(ch) == Some(v)
    requires WithinWindow(calls, d.lastCommandTime, interval)
    requires forall i :: 0 <= i < |calls| && calls[i].channel == ch ==> calls[i].value == v
    ensures forall p :: p in Posts(d, interval, calls) ==> p.channel == ch.Other()
    ensures FinalState(d, interval, calls).LastValue(ch) == Some(v)
    decreases |calls|
  {
    if calls != [] {
      var c := calls[0];
      var r := Send(d, interval, c.channel, c.value, c.now, c.httpOk);
      var rest := calls[1..];
      assert r.after.LastValue(ch) == Some(v);
      assert d.lastCommandTime <= r.after.lastCommandTime <= c.now;
      assert forall i :: 0 <= i < |rest| ==> rest[i] == calls[i + 1];
      assert WithinWindow(rest, r.after.lastCommandTime, interval) by {
        forall i | 0 <= i < |rest|
          ensures r.after.lastCommandTime <= rest[i].now < r.after.lastCommandTime + interval
        {
          assert calls[0].now <= calls[i + 1].now;
        }
      }
      RepeatsSuppressedWithinWindow(r.after, interval, ch, v, rest);
      assert c.channel == ch ==> !r.posted;
    }
  }

  /**
   * `calculate_tracking_adjustment`: the steering action for a person
   * centre `(x, y)` in a frame of size `(width, height)`. Python's `//` by 2
   * rounds down, as Dafny's `/` by a positive divisor does.
   */
  function TrackingAdjustment(trackingEnabled: bool, threshold: int, center: (int, int), frame: (int, int)): (r: string)
    ensures r in {TRACK_LEFT, TRACK_RIGHT, TRACK_CENTER}
    ensures !trackingEnabled ==> r == TRACK_CENTER
    ensures trackingEnabled ==>
      var offset := center.0 - frame.0 / 2;
      && (r == TRACK_LEFT <==> offset < -threshold)
      && (r == TRACK_RIGHT <==> -threshold <= offset && offset > threshold)
      // an offset of exactly +-threshold counts as centred
      && (0 <= threshold ==> (r == TRACK_CENTER <==> -threshold <= offset <= threshold))
  {
    if !trackingEnabled then TRACK_CENTER
    else
      var frameCenterX := frame.0 / 2;
      var offsetX := center.0 - frameCenterX;
      if offsetX < -threshold then TRACK_LEFT
      else if offsetX > threshold then TRACK_RIGHT
      else TRACK_CENTER
  }

  /** The person's y coordinate and the frame height play no part in steering. */
  lemma TrackingIgnoresVertical(enabled: bool, threshold: int, x: int, y1: int, y2: int, width: int, h1: int, h2: int)
    ensures TrackingAdjustment(enabled, threshold, (x, y1), (width, h1))
         == TrackingAdjustment(enabled, threshold, (x, y2), (width, h2))
  {
  }

  /** The worked positions of the controller's self-test in a 640-pixel-wide frame. */
  lemma TrackingSelfTestPositions()
    ensures TrackingAdjustment(true, DEFAULT_FRAME_CENTER_THRESHOLD, (100, 240), (640, 480)) == TRACK_LEFT
    ensures TrackingAdjustment(true, DEFAULT_FRAME_CENTER_THRESHOLD, (540, 240), (640, 480)) == TRACK_RIGHT
    ensures TrackingAdjustment(true, DEFAULT_FRAME_CENTER_THRESHOLD, (320, 240), (640, 480)) == TRACK_CENTER
    ensures TrackingAdjustment(true, DEFAULT_FRAME_CENTER_THRESHOLD, (270, 240), (640, 480)) == TRACK_CENTER
    ensures TrackingAdjustment(true, DEFAULT_FRAME_CENTER_THRESHOLD, (269, 240), (640, 480)) == TRACK_LEFT
  {
  }

  /** `handle_raised_hand_detection`'s choice of gesture string. */
  function RaisedHandGesture(hasRaisedHand: bool, handSide: Option<string>): (g: string)
    ensures g in {GESTURE_NONE, GESTURE_LEFT, GESTURE_RIGHT, GESTURE_BOTH}
    ensures g == GESTURE_NONE <==> !hasRaisedHand
    ensures g == GESTURE_LEFT <==> hasRaisedHand && handSide == Some(GESTURE_LEFT)
    ensures g == GESTURE_RIGHT <==> hasRaisedHand && handSide == Some(GESTURE_RIGHT)
    // an unknown side, or none at all, is reported as both hands
    ensures g == GESTURE_BOTH <==> hasRaisedHand && handSide != Some(GESTURE_LEFT) && handSide != Some(GESTURE_RIGHT)
  {
    if !hasRaisedHand then GESTURE_NONE
    else if handSide == Some(GESTURE_LEFT) then GESTURE_LEFT
    else if handSide == Some(GESTURE_RIGHT) then GESTURE_RIGHT
    else GESTURE_BOTH
  }

  /**
   * The shared timestamp in action: a gesture accepted at 0.0 would
   * normally be repeatable at 0.15 with a 0.1 s interval, but a tracking
   * command accepted at 0.09 restarts the window for the gesture channel too.
   */
  lemma TrackingSendExtendsGestureWindow()
    ensures
      var d0 := Debounce(None, None, 0.0);
      var g := Send(d0, DEFAULT_MIN_COMMAND_INTERVAL, GestureChannel, GESTURE_NONE, 0.0, true);
      var t := Send(g.after, DEFAULT_MIN_COMMAND_INTERVAL, TrackingChannel, TRACK_CENTER, 0.09, true);
      && t.posted
      && !Suppressed(g.after, DEFAULT_MIN_COMMAND_INTERVAL, GestureChannel, GESTURE_NONE, 0.15)
      && Suppressed(t.after, DEFAULT_MIN_COMMAND_INTERVAL, GestureChannel, GESTURE_NONE, 0.15)
  {
  }

  class SmartCarController {
    var carIp: string
    var carPort: int
    var lastGesture: Option<string>
    var lastTrackingAction: Option<string>
    var lastCommandTime: real
    var minCommandInterval: real
    var frameCenterThreshold: int
    var trackingEnabled: bool
    var lastPersonPosition: Option<(int, int)>
    /** Every POST handed to the transport, oldest first. */
    ghost var posts: seq<Post>

    /** The debouncing part of the state. */
    function State(): Debounce
      reads this
    {
      Debounce(lastGesture, lastTrackingAction, lastCommandTime)
    }

    /** `__init__`; `now` is the clock reading taken there. */
    constructor (carIp: string, carPort: int, now: real)
      ensures this.carIp == carIp && this.carPort == carPort
      ensures lastGesture == None && lastTrackingAction == None && lastCommandTime == now
      ensures minCommandInterval == DEFAULT_MIN_COMMAND_INTERVAL
      ensures frameCenterThreshold == DEFAULT_FRAME_CENTER_THRESHOLD
      ensures trackingEnabled && lastPersonPosition == None
      ensures posts == []
    {
      this.carIp := carIp;
      this.carPort := carPort;
      lastGesture := None;
      lastTrackingAction := None;
      lastCommandTime := now;
      minCommandInterval := DEFAULT_MIN_COMMAND_INTERVAL;
      frameCenterThreshold := DEFAULT_FRAME_CENTER_THRESHOLD;
      trackingEnabled := true;
      lastPersonPosition := None;
      posts := [];
    }

    /** `send_hand_gesture`. */
    method SendHandGesture(gesture: string, now: real, httpOk: bool) returns (ok: bool)
      modifies this
      ensures var r := Send(old(State()), minCommandInterval, GestureChannel, gesture, now, httpOk);
        && ok == r.ok
        && State() == r.after
        && posts == old(posts) + Posted(r, GestureChannel, gesture)
      ensures carIp == old(carIp) && carPort == old(carPort) && minCommandInterval == old(minCommandInterval)
      ensures frameCenterThreshold == old(frameCenterThreshold) && trackingEnabled == old(trackingEnabled)
      ensures lastPersonPosition == old(lastPersonPosition)
    {
      if lastGesture == Some(gesture) && now - lastCommandTime < minCommandInterval {
        return true;
      }
      posts := posts + [Post(GestureChannel, gesture)];
      if httpOk {
        lastGesture := Some(gesture);
        lastCommandTime := now;
        ok := true;
      } else {
        ok := false;
      }
    }

    /** `send_tracking_command`. */
    method SendTrackingCommand(action: string, now: real, httpOk: bool) returns (ok: bool)
      modifies this
      ensures var r := Send(old(State()), minCommandInterval, TrackingChannel, action, now, httpOk);
        && ok == r.ok
        && State() == r.after
        && posts == old(posts) + Posted(r, TrackingChannel, action)
      ensures carIp == old(carIp) && carPort == old(carPort) && minCommandInterval == old(minCommandInterval)
      ensures frameCenterThreshold == old(frameCenterThreshold) && trackingEnabled == old(trackingEnabled)
      ensures lastPersonPosition == old(lastPersonPosition)
    {
      if lastTrackingAction == Some(action) && now - lastCommandTime < minCommandInterval {
        return true;
      }
      posts := posts + [Post(TrackingChannel, action)];
      if httpOk {
        lastTrackingAction := Some(action);
        lastCommandTime := now;
        ok := true;
      } else {
        ok := false;
      }
    }

    /** `handle_raised_hand_detection`: send the gesture string for the detection result. */
    method HandleRaisedHandDetection(hasRaisedHand: bool, handSide: Option<string>, now: real, httpOk: bool)
      returns (ok: bool)
      modifies this
      ensures var r := Send(old(State()), minCommandInterval, GestureChannel, RaisedHandGesture(hasRaisedHand, handSide), now, httpOk);
        && ok == r.ok
        && State() == r.after
        && posts == old(posts) + Posted(r, GestureChannel, RaisedHandGesture(hasRaisedHand, handSide))
      ensures carIp == old(carIp) && carPort == old(carPort) && minCommandInterval == old(minCommandInterval)
      ensures frameCenterThreshold == old(frameCenterThreshold) && trackingEnabled == old(trackingEnabled)
      ensures lastPersonPosition == old(lastPersonPosition)
    {
      if !hasRaisedHand {
        ok := SendHandGesture(GESTURE_NONE, now, httpOk);
      } else if handSide == Some(GESTURE_LEFT) {
        ok := SendHandGesture(GESTURE_LEFT, now, httpOk);
      } else if handSide == Some(GESTURE_RIGHT) {
        ok := SendHandGesture(GESTURE_RIGHT, now, httpOk);
      } else {
        ok := SendHandGesture(GESTURE_BOTH, now, httpOk);
      }
    }

    /**
     * `handle_person_tracking`: always one gesture send, then one tracking
     * send (even when the first failed); the result is their conjunction.
     * Each send reads the clock on its own, hence two clock readings.
     */
    method HandlePersonTracking(personCenter: Option<(int, int)>, frame: (int, int),
                                hasRaisedHand: bool, handSide: Option<string>,
                                gestureNow: real, gestureHttpOk: bool,
                                trackingNow: real, trackingHttpOk: bool)
      returns (ok: bool)
      modifies this
      ensures
        var gesture := RaisedHandGesture(hasRaisedHand, handSide);
        var g := Send(old(State()), minCommandInterval, GestureChannel, gesture, gestureNow, gestureHttpOk);
        var action := if personCenter.Some?
          then TrackingAdjustment(trackingEnabled, frameCenterThreshold, personCenter.value, frame)
          else TRACK_CENTER;
        var t := Send(g.after, minCommandInterval, TrackingChannel, action, trackingNow, trackingHttpOk);
        && ok == (g.ok && t.ok)
        && State() == t.after
        && posts == old(posts) + Posted(g, GestureChannel, gesture) + Posted(t, TrackingChannel, action)
      ensures lastPersonPosition == personCenter
      ensures carIp == old(carIp) && carPort == old(carPort) && minCommandInterval == old(minCommandInterval)
      ensures frameCenterThreshold == old(frameCenterThreshold) && trackingEnabled == old(trackingEnabled)
    {
      var success := true;
      var gestureSuccess;
      if hasRaisedHand {
        gestureSuccess := HandleRaisedHandDetection(hasRaisedHand, handSide, gestureNow, gestureHttpOk);
      } else {
        gestureSuccess := SendHandGesture(GESTURE_NONE, gestureNow, gestureHttpOk);
      }
      success := success && gestureSuccess;
      var trackingSuccess;
      if personCenter.Some? {
        var trackingAction := TrackingAdjustment(trackingEnabled, frameCenterThreshold, personCenter.value, frame);
        trackingSuccess := SendTrackingCommand(trackingAction, trackingNow, trackingHttpOk);
        success := success && trackingSuccess;
        lastPersonPosition := personCenter;
      } else {
        trackingSuccess := SendTrackingCommand(TRACK_CENTER, trackingNow, trackingHttpOk);
        success := success && trackingSuccess;
        lastPersonPosition := None;
      }
      ok := success;
    }

    /** `set_tracking_sensitivity`. */
    method SetTrackingSensitivity(threshold: int)
      modifies this
      ensures frameCenterThreshold == threshold
      ensures State() == old(State()) && posts == old(posts)
      ensures carIp == old(carIp) && carPort == old(carPort) && minCommandInterval == old(minCommandInterval)
      ensures trackingEnabled == old(trackingEnabled) && lastPersonPosition == old(lastPersonPosition)
    {
      frameCenterThreshold := threshold;
    }

    /** `enable_tracking`: disabling also sends one debounced `track_center`, whose result is dropped. */
    method EnableTracking(enabled: bool, now: real, httpOk: bool)
      modifies this
      ensures trackingEnabled == enabled
      ensures enabled ==> State() == old(State()) && posts == old(posts)
      ensures !enabled ==>
        var r := Send(old(State()), minCommandInterval, TrackingChannel, TRACK_CENTER, now, httpOk);
        State() == r.after && posts == old(posts) + Posted(r, TrackingChannel, TRACK_CENTER)
      ensures carIp == old(carIp) && carPort == old(carPort) && minCommandInterval == old(minCommandInterval)
      ensures frameCenterThreshold == old(frameCenterThreshold) && lastPersonPosition == old(lastPersonPosition)
    {
      trackingEnabled := enabled;
      if !enabled {
        var _ := SendTrackingCommand(TRACK_CENTER, now, httpOk);
      }
    }

    /**
     * `emergency_stop`: an ordinary, debounced `none` gesture followed by an
     * ordinary, debounced `track_center`; nothing bypasses the cooldown.
     */
    method EmergencyStop(gestureNow: real, gestureHttpOk: bool, trackingNow: real, trackingHttpOk: bool)
      returns (ok: bool)
      modifies this
      ensures
        var g := Send(old(State()), minCommandInterval, GestureChannel, GESTURE_NONE, gestureNow, gestureHttpOk);
        var t := Send(g.after, minCommandInterval, TrackingChannel, TRACK_CENTER, trackingNow, trackingHttpOk);
        && ok == (g.ok && t.ok)
        && State() == t.after
        && posts == old(posts) + Posted(g, GestureChannel, GESTURE_NONE) + Posted(t, TrackingChannel, TRACK_CENTER)
      ensures carIp == old(carIp) && carPort == old(carPort) && minCommandInterval == old(minCommandInterval)
      ensures frameCenterThreshold == old(frameCenterThreshold) && trackingEnabled == old(trackingEnabled)
      ensures lastPersonPosition == old(lastPersonPosition)
    {
      var success1 := SendHandGesture(GESTURE_NONE, gestureNow, gestureHttpOk);
      var success2 := SendTrackingCommand(TRACK_CENTER, trackingNow, trackingHttpOk);
      ok := success1 && success2;
    }
  }
}
