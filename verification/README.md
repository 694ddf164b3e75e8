# Target-following rover: tracking supervisor, control law and actuator bridge

This project models the three pieces of the rover's target-following pipeline that hold decision logic. It proves what each piece promises.

- **Tracking supervisor** (`tracker.dfy`, module `Tracker`). This is `DaSiamRPNTracker` of `DaSiamRPN/dasiam_tracker.py`.
  - `init_from_mask` seeds the tracker from a segmentation mask. The seed box starts at the smallest foreground column and row, and its width and height have a floor of 10 pixels. The seed's centre and size go to the appearance model.
  - Each frame of `track_live` is one step of a state machine. The tracker's `best_score` is smoothed with an exponential moving average (α = 0.7). The box is clamped into the 512×512 frame.
  - A frame whose smoothed score is below 0.35 is *weak*. On a weak frame the tracker falls back to the last confident state, and the box derived from that state is not clamped again.
  - After 15 weak frames in a row the box is held and the quit key is ignored.
  - The class `Supervisor` has the three fields the source reassigns (`state`, `lastGood`, `scoreEma`), plus `lostCount`, which stands for `track_live`'s local `lost_count` and which `TrackLive` clears on entry. Its methods are proved against the pure functions `SeedFromMask`, `Advance` (one frame) and `Run` (the whole loop).
- **Control law** (`control_law.dfy`, module `ControlLaw`). This is `compute_control` of `rover_controller.cpp`.
  - The yaw rate comes from the horizontal offset of the target, with a dead zone of 8% of the frame width. The linear speed comes from the ratio of the target's area to the reference area, with a ±15% tolerance band.
  - Then the two are mixed into left and right wheel commands, and each command is clamped to [-1, 1].
  - The main loop's one rule is also modelled: a box of zero width or height gets the zero command.
- **Actuator bridge** (`actuator.dfy`, module `Actuator`). This is `RoverController` of `control.py`.
  - The pipes to the controller process are a log of written lines and a queue of lines the peer has printed that the bridge has not read yet.
  - The model proves these properties of the line format:
    - every send writes exactly one line;
    - the line splits, the way `std::cin >>` reads it, back into the four integers sent;
    - the stop sentinel is the line of the all-zero box.
  - Replies are not paired with requests: `send_bbox(None)` reads nothing, while the peer prints a start-up banner and answers zero boxes. `ReplyLagExample` shows the banner being returned as the reply to the first real box.

`wrappers.dfy` holds the `Option` and `Result` types.

The clamp (`DaSiamRPN/dasiam_tracker.py:107-108`) runs before the weak check, and the box re-derived on a weak frame (121-127) is yielded unclamped. `Advance` states this in its contract.

## Model

| member | source | states |
|---|---|---|
| Tracker.RowSpan | DaSiamRPN/dasiam_tracker.py:38-42 | A row has no span exactly when it has no positive entry. Otherwise both ends of the span are positive entries, and every positive entry lies between them. |
| Tracker.MaskExtent | DaSiamRPN/dasiam_tracker.py:38-43 | There is no extent exactly when the mask has no foreground pixel. Otherwise every bound is attained by a foreground pixel, and every foreground pixel lies inside the bounds. |
| Tracker.SeedFromMask | DaSiamRPN/dasiam_tracker.py:35-52 | A missing frame or mask is a `MissingInput` error, and an empty mask is an `EmptyMask` error (both iff). On success: the box starts at a foreground column and row; width and height are at least 10; every foreground pixel lies inside the box; a side longer than 10 reaches a foreground pixel; the size is (w, h) and the centre is (x + w/2, y + h/2). |
| Tracker.RawScore | DaSiamRPN/dasiam_tracker.py:90 | A missing `best_score` counts as 1.0, and a present one is taken as it is. |
| Tracker.Smooth | DaSiamRPN/dasiam_tracker.py:92-98 | The first smoothed score is the raw score. Later ones lie between the previous average and the raw score, and differ from the raw score when it differs from the average. |
| Tracker.ClampBox | DaSiamRPN/dasiam_tracker.py:107-108 | The size is unchanged and the corner is non-negative. The box ends inside the 512×512 frame whenever it fits, and a box wider (taller) than the frame is put at column (row) 0. A box already inside is unchanged. |
| Tracker.ClampIsNearest | DaSiamRPN/dasiam_tracker.py:107-108 | No in-frame corner is closer to the original corner than the clamped one. |
| Tracker.ClampIdempotent | DaSiamRPN/dasiam_tracker.py:107-108 | Clamping twice is the same as clamping once. |
| Tracker.Advance | DaSiamRPN/dasiam_tracker.py:88-138 | Effects of one frame: <br>• The smoothed score is stored. <br>• The counter becomes min(count + 1, 15) on a weak frame and 0 on a confident one. <br>• A weak frame restores the last confident state and yields its unclamped box, or keeps and clamps the oracle state when there is none. <br>• A confident frame stores the oracle state as the last confident one and yields its clamped box. <br>• The loop quits exactly when the quit key is pressed and the counter is below 15. |
| Tracker.Run | DaSiamRPN/dasiam_tracker.py:79-160 | The loop yields one box per processed frame except a quitting one, and never more boxes than frames. It ends in a seeded state. |
| Tracker.RunEndsOnQuitOrExhaustion | DaSiamRPN/dasiam_tracker.py:79-160 | The loop either yields a box for every frame, or stops on a frame whose quit key was pressed while the counter was below 15; that frame yields nothing and follows the yielded boxes. Without a quit key press, every frame yields a box. |
| Tracker.LostCountIsWeakStreak | DaSiamRPN/dasiam_tracker.py:110-136 | After any run of frames, the counter equals the number of trailing weak frames, plus the starting count when no frame was confident, capped at 15. |
| Tracker.HardLossNeedsWeakStreak | DaSiamRPN/dasiam_tracker.py:133-138 | Starting from a cleared counter, the counter never exceeds 15, and reaches 15 only after at least 15 weak frames in a row. |
| Tracker.WeakStreakHoldsBox | DaSiamRPN/dasiam_tracker.py:112-138 | While every frame is weak, the last confident state is unchanged, the tracker state is that state, and every yielded box is the box derived from it. |
| Tracker.Supervisor.constructor | DaSiamRPN/dasiam_tracker.py:22-27 | A new tracker has no state, no confident snapshot and no smoothed score. |
| Tracker.Supervisor.InitFromMask | DaSiamRPN/dasiam_tracker.py:34-58 | A failing seed changes nothing and reports its error. A successful seed returns the seed box, stores the initialising oracle's state, copies it as the last confident state, and leaves the smoothed score as it was. |
| Tracker.Supervisor.Step | DaSiamRPN/dasiam_tracker.py:88-160 | The new fields and the outcome are exactly those of `Advance` on the old fields. |
| Tracker.Supervisor.TrackLive | DaSiamRPN/dasiam_tracker.py:63-160 | It fails with `NotInitialized` before any seed and with `SourceUnavailable` without a video source, changing nothing in either case. Otherwise it returns the boxes of `Run` from the current fields with the counter cleared, and ends in `Run`'s final state. |
| ControlLaw.Clamp | rover_controller.cpp:35-37 | The result lies in [lo, hi]. A value already in range is unchanged, and values below or above go to the nearer end. |
| ControlLaw.ClampMonotone | rover_controller.cpp:35-37 | Clamping preserves the order of two values. |
| ControlLaw.CenterX | rover_controller.cpp:40-42 | For a non-negative width, the centre lies between the left and right edges. |
| ControlLaw.Area | rover_controller.cpp:45-47 | A zero side gives area 0, non-negative sides give a non-negative area, and positive sides give a positive area. |
| ControlLaw.YawRate | rover_controller.cpp:54-66 | The yaw rate lies in [-0.8, 0.8] and is 0 inside the dead zone. Outside it, the yaw rate has the sign of the offset. |
| ControlLaw.LinearSpeed | rover_controller.cpp:69-83 | The speed is 0 for a ratio in [0.85, 1.15], positive below and negative above, and always in [-1, 1]. |
| ControlLaw.ComputeControl | rover_controller.cpp:50-94 | Both wheels lie in [-1, 1]. In the dead zone the wheels are equal and run at the linear speed. Right of the dead zone the right wheel is strictly faster, and left of it the left wheel is. |
| ControlLaw.CentredTargetDrivesStraight | rover_controller.cpp:69-91 | A centred target stops the rover within the tolerance band. It drives both wheels forward equally when the target is too far, and backward equally when it is too near. |
| ControlLaw.ReferenceAreaValue | rover_controller.cpp:99-100 | The reference box has area 19200. |
| ControlLaw.Respond | rover_controller.cpp:112-117 | A box of zero width or height gets the zero command, and any other box gets exactly `compute_control`'s command. Every command is within [-1, 1]. For a box of non-zero size the wheels are equal in the dead zone, and right (left) of it the right (left) wheel is strictly faster. |
| ControlLaw.ZeroSizeRuleOverridesForward | rover_controller.cpp:112-117 | For a centred box of zero width, the control law alone would drive forward at 0.8, but the zero-size rule stops the rover. |
| Actuator.NatDecimal | control.py:27 | The rendering of a natural number is non-empty, all digits, and without a leading zero. |
| Actuator.Decimal | control.py:27 | The rendering of an integer is non-empty, and every character is a digit except an optional leading minus sign. |
| Actuator.NatDecimalRoundTrip | control.py:27 | The digits of a natural number read back as that number. |
| Actuator.DecimalRoundTrip | control.py:27 | Every integer field reads back as the integer written. |
| Actuator.FormatLine | control.py:26-27 | It has no contract of its own. `FormatLineFields`, `FormatLineRoundTrip` and `FormatLineIsOneLine` state its properties. |
| Actuator.ParseInt | rover_controller.cpp:107 | It has no contract of its own. `DecimalRoundTrip` and `FormatLineRoundTrip` state that it reads back every written field. |
| Actuator.Fields | rover_controller.cpp:107 | It has no contract of its own. `FormatLineFields` states that a written line splits into exactly its four fields. |
| Actuator.TokenLength | rover_controller.cpp:107 | The leading token contains no separator, and it ends at a separator or at the end of the input. |
| Actuator.FormatLineFields | control.py:26-27 | A written box line splits on whitespace into exactly its four decimal fields. |
| Actuator.FormatLineRoundTrip | control.py:26-27 | The four fields the peer reads from a written line parse back to the box that was sent. |
| Actuator.FormatLineIsOneLine | control.py:22-27 | Both the box line and the stop line are exactly one line, with one newline, at the end. |
| Actuator.StopLineIsZeroBox | control.py:22 | The stop sentinel is the line of the box (0, 0, 0, 0). |
| Actuator.SpaceEnd | control.py:30 | The forward scan stops at the first non-whitespace character, and everything it passed is whitespace. |
| Actuator.SpaceStart | control.py:30 | The backward scan stops after the last non-whitespace character, or at the forward scan's end, and everything it passed is whitespace. |
| Actuator.Strip | control.py:30 | It has no contract of its own. `StripRemovesOnlyEdgeSpace` characterises it completely. |
| Actuator.StripRemovesOnlyEdgeSpace | control.py:30 | The stripped reply is a stretch of the line with only whitespace before and after it, and it neither starts nor ends with whitespace. |
| Actuator.StripInitBanner | rover_controller.cpp:102 | Stripping the controller's start-up line gives its text without the newline. |
| Actuator.RoverController.constructor | control.py:5-13 | A new bridge has written nothing, has read nothing, and has a process. |
| Actuator.RoverController.PeerPrints | rover_controller.cpp:113-120 | A line the peer prints joins the end of the unread queue, and nothing else changes. |
| Actuator.RoverController.ReadLine | control.py:30 | It returns and removes the oldest unread line, or returns the empty string when none is left. |
| Actuator.RoverController.SendBbox | control.py:16-30 | With no box it writes the stop line, reads nothing and returns "STOP". With a box it writes that box's line and returns the next unread peer line, stripped, or "" when none is left. |
| Actuator.RoverController.Stop | control.py:32-35 | It writes the stop line exactly when a process exists, and never reads. |

## Left out

- The DaSiamRPN network, `SiamRPN_init` and `SiamRPN_track` are passed in as functions. The model does not describe how they compute a state.
- `cxy_wh_2_rect` followed by `int` is passed in as a function from centre and size to an integer box. `utils` is not part of this model.
- Video capture, resizing, drawing, `imshow`, FPS timing and window teardown are I/O, and the `display` flag only affects them.
  - The quit key (`cv2.waitKey`) is a per-frame input.
  - Whether the video source opens is a boolean input.
- `track_live` is a generator that yields boxes lazily. `Supervisor.TrackLive` drains it over a finite sequence of frames. A caller that stops early sees a prefix of the same boxes.
- The tracker states are immutable values. Aliasing of numpy arrays through the shallow dictionary `.copy()` depends on the tracker's internals, which are not shown.
- Float32 and float64 rounding are not modelled: all tracker and control arithmetic is over `real`. The tracker's box is integral because `int` is applied to it, and that conversion belongs to the rect function passed in.
- `ControlLaw.ComputeControl`: requires a positive reference area. The source divides by it unguarded. Its only caller passes 19200.
- The controller's stdin/stdout loop, the `sleep_for` pacing and the formatting of non-zero commands by `std::cout` are left out. Only the per-line decision of its main loop is modelled, by `Respond`: a zero-size box stops the rover and any other box gets `compute_control`'s command.
- The peer reads four `float` fields. The model reads the four integer fields the bridge writes, using integer parsing.
- `subprocess.Popen`, `terminate`, `wait` and `close` are process plumbing. A bridge's process is assumed to exist from construction.
- `Actuator.RoverController.ReadLine`: a blocking read on an empty pipe is modelled as end of stream, returning "". The model does not capture waiting for the peer.
- `send_bbox` with a tuple of non-integer fields is not modelled: boxes are four integers, as the tracker yields them.
- The segmentation models, mask post-processing, image preprocessing and the demo script are outside the modelled core.
