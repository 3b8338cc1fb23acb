# Gesture- and tracking-controlled smart car, modelled in Dafny

The system is a four-wheeled car driven by an ESP32. A laptop camera
feeds a pose model. The vision side classifies the first person's pose as
"left hand raised", "right hand raised", "both" or nothing
(`detect_raised_hand`). A Python controller (`SmartCarController`) turns
that result, and the person's horizontal position in the frame, into HTTP
POSTs: a `gesture` form field to `/hand-gesture` and an `action` field to
`/person-tracking`. Each POST goes through a debouncer that drops a
repeated value inside the command interval. The firmware maps each string
to a numeric command code. `processCarMovement` turns the code into
direction commands for four motors. Each direction is corrected by a
per-motor calibration and ends up as duties on eight PWM channels, two
per motor. A small YAML-backed `ConfigLoader` serves dotted-path lookups
and updates.

The project is made of these files:

- `wrappers.dfy`: the `Option` type, standing for Python's value-or-`None`.
- `gestures.dfy`: the raised-hand classifier. It is a pure function over
  keypoint rows.
- `controller.dfy`: `SmartCarController` as a class whose methods update
  its fields. The specification of the two send methods is the pure
  transition `Send` on the debouncing state (last gesture, last tracking
  action, one shared timestamp). A ghost trace `posts` records every POST
  handed to the transport. The steering decision (`TrackingAdjustment`)
  and the gesture choice (`RaisedHandGesture`) are pure functions.
- `firmware.dfy`: the firmware's globals as a class `SmartCar`. It holds
  an `array` of eight PWM duties and the calibration. Each firmware
  routine is a method, proved against the function `CommandDuties`,
  which gives the duties a command code leaves behind.
- `config.dfy`: the configuration tree, Python's `str.split('.')`, the
  walks made by `get` and `set`, and `ConfigLoader` as a class over that
  tree.
- `pipeline.dfy`: lemmas that compose the three stages, from a pose to
  the PWM state of the car.

The clock, the transport and the hardware are parameters of the model:

- Each send method takes the reading of `time.time()` it would see
  (`now`) and whether the POST came back with status 200 (`httpOk`).
  `httpOk` is false for any other status and for a transport exception.
- `handle_person_tracking` and `emergency_stop` perform two sends, each
  reading the clock on its own, so they take two readings.
- `ledcWrite` is the assignment of one array element.

Three properties of the code are worth knowing:

- The debouncer keeps ONE timestamp for both channels
  (car_controller.py:26, 51-52, 87-88). A value different from the
  channel's last one is always sent, even inside the window. Nothing
  bypasses the cooldown, not even `emergency_stop`.
- The firmware drives the car backward for the gesture "right"
  (smartcar.cpp:342-345). It stops for "both" and "none".
- The controller's own interval is the constant 0.1 s
  (car_controller.py:27). The configuration file's
  `controller.min_command_interval` defaults to 2.0 s, and the
  controller never reads it. Each model follows its own file.

## Model

| member | source | states |
|---|---|---|
| Gestures.DetectRaisedHand | main_with_car.py:61-105 | An absent or short keypoint array gives (false, None). The flag is true iff a side is reported. The side is "both" iff both arms are raised, "left" iff only the left one is, "right" iff only the right one is, and None iff neither is. An arm is raised when shoulder, elbow and wrist are visible and the wrist is above the elbow, which is above the shoulder. |
| Gestures.IgnoresHorizontalPosition | main_with_car.py:85-103 | Two keypoint arrays with the same y coordinates and confidences are classified alike: x never matters. |
| Gestures.ThresholdConfidenceIsInvisible | main_with_car.py:76-81 | A keypoint whose confidence equals the threshold is not visible. With such a left wrist and right elbow, no hand is detected. |
| Controller.Send | car_controller.py:34-96 | A POST is made exactly when it is not the case that the value equals the channel's last one and less than the interval has passed since the shared timestamp. A different value is always posted. A suppressed send reports success and changes nothing. A failed POST reports failure and changes nothing. An accepted POST records the value on its own channel, keeps the other channel's value and sets the shared timestamp to `now`. |
| Controller.RepeatsSuppressedWithinWindow | car_controller.py:36-41 | Once `v` is the last accepted value on a channel, any series of sends whose clock readings are ordered and inside the window never posts `v` (or anything) on that channel, whatever is sent on the other one. The channel still remembers `v` afterwards. |
| Controller.TrackingSendExtendsGestureWindow | car_controller.py:86-88 | A tracking command accepted at 0.09 s suppresses a repeated gesture at 0.15 s. Without it, the gesture accepted at 0.0 s would be sent again: the timestamp is shared. |
| Controller.TrackingAdjustment | car_controller.py:98-128 | The result is one of the three tracking actions, and always `track_center` when tracking is disabled. Otherwise, with offset = x - width // 2: `track_left` iff offset < -threshold; `track_right` iff -threshold <= offset and offset > threshold; and for a non-negative threshold, `track_center` iff the offset lies within [-threshold, threshold]. |
| Controller.TrackingIgnoresVertical | car_controller.py:112-118 | The person's y coordinate and the frame height never change the action. |
| Controller.TrackingSelfTestPositions | car_controller.py:258-265 | In a 640x480 frame with threshold 50: x=100 gives left, 540 gives right, 320 gives center. The boundary 270 gives center and 269 gives left. |
| Controller.RaisedHandGesture | car_controller.py:176-186 | The gesture is "none" iff no hand is raised, "left"/"right" iff raised with that side, and "both" for any other side, including a missing side. |
| Controller.SmartCarController.constructor | car_controller.py:13-32 | Empty debouncing state with the timestamp set to the clock reading, interval 0.1, threshold 50, tracking enabled, no last position. |
| Controller.SmartCarController.SendHandGesture | car_controller.py:34-60 | Result, new debouncing state and trace follow `Send` on the gesture channel. No other field changes. |
| Controller.SmartCarController.SendTrackingCommand | car_controller.py:62-96 | Result, new debouncing state and trace follow `Send` on the tracking channel. No other field changes. |
| Controller.SmartCarController.HandleRaisedHandDetection | car_controller.py:176-186 | One gesture send of `RaisedHandGesture(hasRaisedHand, handSide)`, with its result. |
| Controller.SmartCarController.HandlePersonTracking | car_controller.py:130-174 | One gesture send, then one tracking send of the adjustment for the person (or `track_center` when there is none), even when the first send failed. The result is the conjunction of both results. The last position is recorded. |
| Controller.SmartCarController.SetTrackingSensitivity | car_controller.py:188-196 | Only the threshold changes. |
| Controller.SmartCarController.EnableTracking | car_controller.py:198-205 | Sets the flag. Disabling also performs one ordinary `track_center` send, whose result is dropped. |
| Controller.SmartCarController.EmergencyStop | car_controller.py:221-226 | An ordinary debounced "none" gesture send, then an ordinary debounced `track_center` send. The result is their conjunction. |
| Firmware.PinDuties | smartcar.cpp:187-203 | IN1 is at 255 exactly for a corrected forward direction and IN2 exactly for a corrected backward one; the two are never driven together. |
| Firmware.CommandDuties | smartcar.cpp:266-383 | Eight duties; motor m's channels 2m and 2m+1 carry the pin duties of its table direction times its calibration entry. |
| Firmware.Directions | smartcar.cpp:266-383 | The motor table: four directions per code, each FORWARD, BACKWARD or STOP. |
| Firmware.NeverBothPinsDriven | smartcar.cpp:184-204 | For every code and calibration, a motor's two channels are never both driven, and each duty is 0 or 255. |
| Firmware.DutiesFollowCalibration | smartcar.cpp:184-204 | With a calibration of ±1 entries, IN1 is at 255 iff the corrected direction is forward, and IN2 is at 255 iff it is backward. |
| Firmware.StopCodesStopEverything | smartcar.cpp:266-383 | With a ±1 calibration, a code leaves all eight channels at 0 iff it is STOP, both hands, no hand, TRACK_CENTER or an unknown code. |
| Firmware.CommandAliases | smartcar.cpp:266-383 | Left hand acts as UP, right hand as DOWN, TRACK_LEFT as TURN_LEFT, TRACK_RIGHT as TURN_RIGHT. |
| Firmware.GestureCode | smartcar.cpp:390-412 | "left" gives 11, "right" 12, "both" 13 and "none" 14, each as an iff; every other string gives STOP. |
| Firmware.TrackingCode | smartcar.cpp:414-434 | "track_left" gives 15, "track_right" 16 and "track_center" 17, each as an iff; every other string gives STOP. |
| Firmware.SmartCar.constructor | smartcar.cpp:83 | Eight fresh channels and the given calibration. |
| Firmware.SmartCar.LedcWrite | smartcar.cpp:191-192 | `ledcWrite`: exactly one channel takes the new duty; the other seven keep theirs. |
| Firmware.SmartCar.RotateMotor | smartcar.cpp:184-204 | Only the motor's two channels change, to the duties of the corrected direction. |
| Firmware.SmartCar.RotateMotorSynchronized | smartcar.cpp:206-226 | The same effect as `rotateMotor`; `preStart` is ignored. |
| Firmware.SmartCar.StartAllMotorsForward | smartcar.cpp:228-242 | All four motors forward, front left first. |
| Firmware.SmartCar.StartAllMotorsBackward | smartcar.cpp:244-255 | All four motors backward. |
| Firmware.SmartCar.StopAllMotors | smartcar.cpp:257-264 | All eight channels at 0. |
| Firmware.SmartCar.ProcessCarMovement | smartcar.cpp:266-383 | The PWM state becomes `CommandDuties(code, calibration)`. It depends only on the code, so a repeated code changes nothing. |
| Firmware.SmartCar.HandleHandGesture | smartcar.cpp:390-412 | A missing `gesture` field gives 400 and leaves the channels alone. Otherwise the reply is 200 and the PWM state is that of `GestureCode(gesture)`. |
| Firmware.SmartCar.HandlePersonTracking | smartcar.cpp:414-434 | A missing `action` field gives 400 and leaves the channels alone. Otherwise the reply is 200 and the PWM state is that of `TrackingCode(action)`. |
| Firmware.SmartCar.OnWebSocketDisconnect | smartcar.cpp:448-451 | A disconnecting client stops the car: all channels at 0. |
| Firmware.SmartCar.SetUpPinModes | smartcar.cpp:467-483 | After the loop over the motors, all eight channels are at 0. |
| Config.Split | config_loader.py:102 | `str.split('.')`: never an empty list, even for an empty key. |
| Config.SplitCount | config_loader.py:102 | `split('.')` yields one segment more than the key has dots. |
| Config.SplitSegmentsLackSeparator | config_loader.py:102 | No segment of `split('.')` contains a dot. |
| Config.JoinSplit | config_loader.py:102 | Joining the segments of `split('.')` with dots gives the key back. |
| Config.SplitJoin | config_loader.py:102 | Splitting dot-joined, dot-free segments gives the segments back. |
| Config.GetPathAppend | config_loader.py:96-115 | Reading `p + q` is reading `p` and then `q` below it. The default is returned as soon as `p` is not present. |
| Config.GetPath | config_loader.py:104-111 | The walk of `get`: the value stored at the path when every segment is found in a dictionary, and the default as soon as one is missing or a non-dictionary is met. |
| Config.ConfigLoader.Get | config_loader.py:96-115 | `get(key_path, default)`: the stored value at the dot-separated segments of the key when all are present, the default otherwise. |
| Config.GetDotted | config_loader.py:96-115 | `get` on dot-joined, dot-free segments reads exactly those segments, and gives the default when they are not all present. |
| Config.SetPath | config_loader.py:122-133 | The walk of `set`: below a non-dictionary it fails; on success the result is a dictionary whose top-level keys are the old ones plus the first segment, with every other top-level entry untouched. |
| Config.SetInEmptySucceeds | config_loader.py:117-137 | Setting any path below an empty dictionary succeeds: missing intermediates are created. |
| Config.SetSucceedsIff | config_loader.py:117-137 | `set` succeeds iff every value its walk reaches is a dictionary. Otherwise the raised error is caught. |
| Config.GetAfterSet | config_loader.py:117-137 | After a successful `set(p, v)`, `get(p)` returns `v`. |
| Config.SetLeavesOtherPaths | config_loader.py:117-137 | `set(p, v)` leaves the value at every path that parts ways with `p` unchanged. |
| Config.ConfigLoader.constructor | config_loader.py:14-17 | The loader holds the configuration it was given. |
| Config.ConfigLoader.Set | config_loader.py:117-137 | The configuration becomes the updated tree, or stays as it was when the walk fails. |
| Config.ConfigLoader.GetWifiConfig | config_loader.py:156-161 | The result has the entries `ssid` and `password`, each read by `get` on its own dotted key (values via `Config.GetDotted`). |
| Config.ConfigLoader.GetCarConfig | config_loader.py:163-168 | The result has the entries `ip` and `port`, each read by `get` on its own dotted key. |
| Config.ConfigLoader.GetMotorConfig | config_loader.py:170-178 | The result has the five motor entries, each read by `get` on its own dotted key. |
| Config.ConfigLoader.GetVisionConfig | config_loader.py:180-196 | The result has the nested `camera`, `hand_detection` and `yolo` entries, whose fields are read by `get` on three-segment keys. |
| Config.ConfigLoader.GetControllerConfig | config_loader.py:198-204 | The result has the three controller entries, each read by `get` on its own dotted key. |
| Config.ConfigLoader.GetDisplayConfig | config_loader.py:206-218 | The result has the nine display entries, each read by `get` on its own dotted key. |
| Config.MinCommandIntervalDefault | config_loader.py:198-204 | A missing `controller.min_command_interval` reads as 2.0. |
| Config.CarConfigDefaults | config_loader.py:163-168 | A missing `car.ip` reads as "192.168.1.112", a missing `car.port` as 80. |
| Config.WifiConfigDefaults | config_loader.py:156-161 | A missing `wifi.ssid` or `wifi.password` reads as the firmware's own credentials. |
| Config.VisionCameraWidthDefault | config_loader.py:180-196 | A missing `vision.camera.width` reads as 640 inside the nested `camera` entry. |
| Pipeline.RaisedHandReachesCar | car_controller.py:176-186 | A classified pose reaches the car as the reported side or "none", and never as the unknown-gesture fallback. The car drives forward iff only the left arm is raised, backward iff only the right one is, and stands still iff both or neither are. |
| Pipeline.TrackingReachesCar | car_controller.py:98-128 | A steering decision reaches the car as a tracking code. The car spins left iff tracking is on and the person is more than the threshold left of centre, and spins right iff more than the threshold right. Otherwise it stands still. |
| Pipeline.EmergencyStopStopsCar | car_controller.py:221-226 | Both strings of the emergency stop stop every motor once accepted, whatever the ±1 calibration. |

## Left out

- HTTP transport: `requests.post`, its timeout, the URL built from `base_url`, and `test_connection`. A POST is reduced to the `httpOk` parameter, and the trace records what would have been sent.
- Clock: `time.time()` is a parameter of each send.
- Controller.Send: clock readings and the 0.1 s interval are Python floats, modelled as exact reals. The duplicate test still agrees: the difference of two nearby readings is computed exactly, and the double nearest 0.1 lies just above 1/10 with no double in between, so `diff < 0.1` gives the same answer on doubles and on reals.
- Gestures.DetectRaisedHand: keypoint coordinates and confidences are floats, modelled as reals; NaN values are not modelled.
- Vision: the YOLO and OpenCV pipeline, drawing, `process_frame`, and the webcam and video loops. `process_frame` (main_with_car.py:177) calls `handle_gesture`, which the controller class does not define. That call is not part of this model; the controller entry point modelled is `handle_raised_hand_detection`.
- Firmware wiring: WiFi, the web server and its HTML page, `setup`, `loop`, `ledcSetup` and `ledcAttachPin` (hardware configuration with no effect on duties), `delay(50)` (timing only), and the `Serial` logging.
- Firmware.SmartCar.ProcessCarMovement: takes the already parsed integer code. The WebSocket text frame path and `String::toInt` parsing are not modelled.
- Firmware.SmartCar.constructor: the initial duties of the channels are left unspecified (whatever the hardware powers up with).
- Configuration files: `_load_config`, `_get_default_config`, `save` and `reload` (YAML file I/O), and logging. The loader starts from an already loaded tree.
- Config.ConfigLoader.Set: the tree is updated as a value. Aliasing between nested dictionaries that Python mutates in place is not captured. Keys are strings only; YAML's non-string keys are not modelled.
- Config.ConfigLoader.GetDisplayConfig: the four colour entries are returned as stored. Python's `tuple()` runs outside `get`'s error handling, so a stored scalar or null there raises out of the getter, a stored string becomes a tuple of its characters and a stored dictionary a tuple of its keys; the model captures none of this and treats every stored value, list or not, as the value itself.
- Config.ConfigLoader.GetMotorConfig: like every getter, its values are stated only through `Config.GetDotted`; default lemmas exist only for the wifi, car, controller and vision camera entries.
- Integer widths: the firmware's `int` arithmetic and the pixel coordinates are unbounded integers. All values involved are small.
