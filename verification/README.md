# Veritas detection controller, modelled in Dafny

Veritas is a desktop surveillance station. A timer calls `VeritasApp.loop`
about twenty times a second. Each call is one *tick*:

1. Read a camera frame. If the read fails, log `Camera read failed.` and stop.
2. Derive three signals from the detectors:
   - **motion**: some contour of the difference to the previous blurred frame has an area of at least 1200;
   - **human**: some YOLO box is labelled `person`, in any letter case;
   - **face**: face_recognition found at least one face.
3. Log one time-stamped line per signal raised.
4. Drive the siren latch: start the siren when the alarm switch is on and a person is in view; stop it otherwise.
5. Build the composite frame: the camera frame beside a panel drawn from the newest log lines.
6. Step three recording channels, Motion, Human and Face, in that order.

Each recording channel is a hysteresis machine. It holds at most one open
video writer. It opens the writer on the first signalled tick, naming the
file `FOLDER/Prefix_DD_MM_YYYY  TIME HH_MM_SS.avi`, and writes the composite
on every signalled tick. It releases the writer on the 20th consecutive tick
without the signal, or as soon as its switch is turned off. Every open and
every stop is logged.

The log keeps the newest 200 lines. A line of 95 characters or more is
shortened to 92 characters plus `…`. Flipping a switch logs a status line
such as `Motion=ON | Human=OFF | Face=OFF | Alarm=ON`. Closing the window
stops the siren and releases every open writer.

The model has these modules:

| file | module | what it holds |
|---|---|---|
| `wrappers.dfy` | `Wrappers` | `Option` |
| `text.dfy` | `Text` | decimal digits: zero-padded fields and `str(n)` |
| `clock.dfy` | `Clock` | clock readings and the two `strftime` formats, with their parsers |
| `naming.dfy` | `Naming` | `timestamp_filename` and the switch-status line |
| `eventlog.dfy` | `EventLog` | the buffer part of `append_log` |
| `panel.dfy` | `Panel` | the line selection of `draw_log_panel` |
| `frames.dfy` | `Frames` | opaque frames and the composite |
| `signals.dfy` | `Signals` | the motion, person and face loops |
| `alarm.dfy` | `Alarm` | the siren latch |
| `recording.dfy` | `Recording` | one recording channel: the pure step `ChannelStep`, its run over many ticks, and the `Channel` class that updates its fields in place |
| `veritas.dfy` | `Veritas` | the `App` class, holding `loop` (`Tick`), `append_log`, `_on_switch_change` and `on_close` |

The collaborators are modelled this way:
- **Audio device.** Modelled as the sequence of `Play`/`Stop` commands sent to it.
- **Video writer.** Modelled as the sequence of `Open(path)`/`Write(frame)`/`Release` events it receives.
- **Camera, detectors, file system, clock.** Their results are fields of `FrameInput`:
  - `readOk`: whether the read succeeded;
  - the frame;
  - the face boxes;
  - the class names of the YOLO boxes;
  - the areas of the contours;
  - the clock reading;
  - whether the siren file exists;
  - whether loading or playing it raised.

## Model

| member | source | states |
|---|---|---|
| Text.Pad2 | veritas_final_ui.py:57 | A `%d`/`%m`/`%H`/`%M`/`%S` field is exactly two characters |
| Text.Pad2Reads | veritas_final_ui.py:57 | The two characters are digits and denote the number |
| Text.Pad4 | veritas_final_ui.py:57 | A `%Y` field, for years 1000 to 9999, is exactly four characters |
| Text.Pad4Reads | veritas_final_ui.py:57 | The four characters are digits and denote the year |
| Text.Pad2OfRead | veritas_final_ui.py:57 | Every two-digit string is the padded form of the number it denotes, so the padded form is unique |
| Text.Pad4OfRead | veritas_final_ui.py:57 | Every four-digit string is the padded form of the number it denotes |
| Text.NatToString | veritas_final_ui.py:302 | `str(len(faces_scaled))` is never empty |
| Text.NatToStringReads | veritas_final_ui.py:302 | `str(n)` writes only digits, they denote `n`, and there is no leading zero unless `n` is 0 |
| Clock.FileStamp | veritas_final_ui.py:57 | The file-name stamp is 25 characters long |
| Clock.FileStampSlices | veritas_final_ui.py:57 | Each field of the stamp sits at its fixed position: `DD_MM_YYYY`, then two spaces and `TIME `, then `HH_MM_SS` |
| Clock.FileStampRoundTrip | veritas_final_ui.py:57 | Parsing the file-name stamp gives back the clock reading |
| Clock.ParseFileStampSound | veritas_final_ui.py:57 | Every string that parses is the stamp of the reading it parses to |
| Clock.FileStampInjective | veritas_final_ui.py:57 | Distinct clock readings give distinct file-name stamps |
| Clock.LogStamp | veritas_final_ui.py:292 | The `%Y-%m-%d %H:%M:%S` stamp; `LogStampSlices` and `LogStampRoundTrip` state that it has its fields at fixed places and gives back the clock reading |
| Clock.LogStampSlices | veritas_final_ui.py:292 | Each field of `%Y-%m-%d %H:%M:%S` sits at its fixed position |
| Clock.LogStampRoundTrip | veritas_final_ui.py:292 | Parsing the log stamp gives back the clock reading |
| Naming.TimestampFilename | veritas_final_ui.py:56-58 | `timestamp_filename` with the clock passed in; `FilenameRecoversClock` and `FilenameInjective` state that the path ends with the prefix, the stamp and `.avi`, gives back the clock reading, and differs for different seconds |
| Naming.JoinEndsWithName | veritas_final_ui.py:58 | `os.path.join` ends with the file name, and puts exactly one `/` between a folder and a relative name |
| Naming.FilenameRecoversClock | veritas_final_ui.py:56-58 | A recording path ends with `_`, the 25-character stamp and `.avi`, whatever the folder and prefix; the clock reading is recovered from it |
| Naming.FilenameInjective | veritas_final_ui.py:56-58 | Two recordings of one channel get the same path only if they start in the same second |
| Naming.StatusLine | veritas_final_ui.py:223-226 | The status string of the four switches; `StatusRoundTrip` and `StatusInjective` state that it determines all four positions |
| Naming.StatusRoundTrip | veritas_final_ui.py:223-226 | The status line determines all four switch positions |
| Naming.StatusInjective | veritas_final_ui.py:223-226 | Distinct switch positions give distinct status lines |
| EventLog.Truncate | veritas_final_ui.py:417 | A line shorter than 95 is stored verbatim; a longer one is stored as its first 92 characters plus `…` (93 in all); a stored line is always shorter than 95 |
| EventLog.TruncateIdempotent | veritas_final_ui.py:417 | Storing a stored line again changes nothing |
| EventLog.KeepLast | veritas_final_ui.py:418 | For every `n >= 1` (the source uses 200 and 18), `s[-n:]` is the suffix of `s` of length `min(n, len(s))` |
| EventLog.KeepLastAbsorbs | veritas_final_ui.py:418 | Trimming after every append gives the same buffer as trimming once at the end |
| EventLog.Appended | veritas_final_ui.py:417-418 | The buffer after `append_log` on each line in turn; `AppendedKeepsLast` and `AppendedBounded` state its contents and its bound of 200 |
| EventLog.AppendedKeepsLast | veritas_final_ui.py:417-418 | After appending any lines one by one, the buffer is the last 200 of the old buffer followed by the stored lines, oldest first |
| EventLog.AppendedAppend | veritas_final_ui.py:417-418 | Appending two batches in turn is appending their concatenation |
| EventLog.AppendedBounded | veritas_final_ui.py:417-418 | The buffer's length is `min(200, old length + lines appended)`, so it never exceeds 200 |
| EventLog.AfterManyAppends | veritas_final_ui.py:417-418 | After 250 appends to an empty log, exactly the last 200 lines, as stored, are kept |
| Panel.RowLimit | veritas_final_ui.py:66-68 | The loop's row limit is at least one: the `break` is tested only after a row is drawn |
| Panel.RowLimitSpec | veritas_final_ui.py:62-68 | Row `i` after the first is drawn exactly when its baseline `28 + 26 i` is at most `height - 10` |
| Panel.PanelRows | veritas_final_ui.py:60-68 | The rows `draw_log_panel` draws; `PanelRowsSpec` states which line is drawn at which baseline, and `DrawLogPanel` that the loop draws exactly these |
| Panel.PanelRowsSpec | veritas_final_ui.py:62-68 | Line `i` of the newest 18 is drawn exactly when it is the first line or fits, at baseline `28 + 26 i`, with its own text |
| Panel.FullPanelShowsAll | veritas_final_ui.py:60-68 | On the 540-pixel panel of the recorded frame, all of the newest 18 lines are drawn |
| Panel.DrawLogPanel | veritas_final_ui.py:60-70 | The loop with its early `break` draws exactly the rows of the reference definition |
| Signals.MotionSignal | veritas_final_ui.py:275-289 | No motion without a previous frame, otherwise some contour of area at least 1200; `DetectMotion` and `App.Detect` compute it |
| Signals.DetectMotion | veritas_final_ui.py:284-289 | The contour loop sets the flag exactly when some area is at least 1200 |
| Signals.IsPerson | veritas_final_ui.py:269 | `.lower() == "person"`; `IsPersonExactly` states it |
| Signals.IsPersonExactly | veritas_final_ui.py:269 | A class name is a person exactly when it has six characters, each the lower- or upper-case letter of `person` at its place |
| Signals.HumanSignal | veritas_final_ui.py:258-270 | Some box of some result names a person; `DetectPersons` computes exactly this |
| Signals.DetectPersons | veritas_final_ui.py:258-270 | The YOLO loops set the flag exactly when some box of some result is labelled `person`, in any case |
| Signals.ScaleFaces | veritas_final_ui.py:251-254 | Every face box is scaled by 4, in order, and none is dropped |
| Alarm.AlarmStep | veritas_final_ui.py:304-320 | `Play` is sent exactly when the switch is on, a person is seen, the siren is silent and the file exists; `Stop` is sent exactly when the siren was playing and the condition fails; the latch ends set exactly when the condition holds and the siren was playing or started without error; at most one command per tick |
| Alarm.AlarmStepKeepsLatch | veritas_final_ui.py:304-320 | The latch is set only while the last command sent was `Play` |
| Alarm.AlarmRun | veritas_final_ui.py:304-320 | The siren latch over a run of ticks; `AlarmRunAlternates` states that the commands alternate and that the latch tracks an outstanding `Play` |
| Alarm.AlarmRunAlternates | veritas_final_ui.py:304-320 | While the device never fails, the commands over any run alternate `Play`, `Stop`, `Play`, and so on, so there is never a second `Play` while the siren loops; the latch is set exactly when a `Play` is outstanding |
| Recording.ChannelStep | veritas_final_ui.py:325-347 | One channel's block of the loop; `ChannelStepContract` states its cases |
| Recording.ChannelStepContract | veritas_final_ui.py:325-347 | One channel tick: (1) a writer is opened only when enabled, signalled and none is open, at the tick's path, with one start line; (2) the composite is written exactly on enabled signalled ticks and resets the counter; (3) a release happens exactly on toggle-off with a writer, or on the miss that reaches the threshold, with the matching stop line; (4) a miss below the threshold only counts; (5) with no writer open, a miss changes nothing; (6) toggle-off keeps the counter |
| Recording.StepKeepsLifecycle | veritas_final_ui.py:325-347 | A tick extends a legal writer lifecycle (never two writers, no write or release without one) to a legal one that agrees with the new writer |
| Recording.StepKeepsMissesBelowThreshold | veritas_final_ui.py:333-342 | While a writer is open, its counter stays below 20 |
| Recording.Run | veritas_final_ui.py:325-347 | A channel over a run of ticks; `RunKeepsLifecycle`, `RunAppend` and `OneStartLinePerOpen` state what it keeps |
| Recording.RunKeepsLifecycle | veritas_final_ui.py:325-347 | Over any run of ticks, the writer lifecycle stays legal |
| Recording.RunAppend | veritas_final_ui.py:325-347 | Running over `a` then over `b` is running over `a + b` |
| Recording.GraceThenStop | veritas_final_ui.py:335-342 | From an open writer with `m` misses, signal-less ticks only count, writing and logging nothing, until the counter reaches 20; that tick releases the writer, logs one stop line and resets the counter |
| Recording.StaleMissesUnobservable | veritas_final_ui.py:333-347 | The counter left behind by a toggle-off never shows: states differing only in it produce the same events and lines on every run |
| Recording.StepStartedLines | veritas_final_ui.py:326-332 | Each tick logs as many start lines as writers it opens |
| Recording.OneStartLinePerOpen | veritas_final_ui.py:326-332 | Over any run, exactly one `Recording started: ` line is logged per writer opened |
| Recording.HitsWriteEveryFrame | veritas_final_ui.py:333-334 | While the signal holds, an open writer receives every frame, in order, and the counter stays 0 |
| Recording.FirstHitOpens | veritas_final_ui.py:326-334 | The first signalled tick of an idle, enabled channel opens the writer at the tick's path, writes the frame and logs the start |
| Recording.BurstFromIdle | veritas_final_ui.py:326-334 | A burst of signalled ticks from idle opens one writer and writes every frame of the burst |
| Recording.GapBelowThresholdKeepsRecording | veritas_final_ui.py:325-342 | A gap of 19 signal-less ticks keeps the same writer open, and nothing is written during the gap |
| Recording.TwentyMissesStop | veritas_final_ui.py:325-342 | 20 signal-less ticks after a hit release the writer once, with one stop line |
| Recording.TwoBurstsOneClip | veritas_final_ui.py:325-342 | Signal on frames 0-4 and 20-24 only: one clip holding exactly those ten frames, still open at the end |
| Recording.Channel.constructor | veritas_final_ui.py:107-114 | A channel starts with no writer and a zero counter |
| Recording.Channel.Step | veritas_final_ui.py:325-347 | The in-place channel block moves its fields and its writer events exactly as `ChannelStep` does, opening at the path `timestamp_filename` gives for the tick's clock, and it keeps the lifecycle invariant |
| Recording.Channel.Close | veritas_final_ui.py:426-432 | Shutdown releases the writer if one is open, after which the lifecycle has no writer open |
| Veritas.FaceLine | veritas_final_ui.py:302 | The face message; `FaceLineCount` states that it carries the count in decimal |
| Veritas.DetectionLines | veritas_final_ui.py:296-302 | The detection lines of a tick, motion, human, face, each only if raised; `DetectionLineParts` and `App.LogDetections` state their form and order |
| Veritas.DetectionLineParts | veritas_final_ui.py:292-302 | A detection line is `[`, the log stamp (from which the clock reading is recovered), `] ` and the message |
| Veritas.FaceLineCount | veritas_final_ui.py:302 | The face line states the number of faces in decimal between the parentheses |
| Veritas.App.constructor | veritas_final_ui.py:98-117 | Every switch off, no previous frame, no writers, zero counters, silent siren, empty log |
| Veritas.App.AppendLog | veritas_final_ui.py:412-418 | The buffer becomes the last 200 of the old buffer plus the stored line |
| Veritas.App.OnSwitchChange | veritas_final_ui.py:221-227 | The switches take their new positions, and exactly their status line is logged |
| Veritas.App.BuildCombinedFrame | veritas_final_ui.py:407-410 | The composite holds the frame and the panel rows drawn from the log as it stands |
| Veritas.App.LogDetections | veritas_final_ui.py:296-302 | The motion, human and face lines are logged, each only if its signal is raised, in that order |
| Veritas.App.UpdateAlarm | veritas_final_ui.py:304-320 | The latch and the commands sent follow `AlarmStep`, and the latch invariant is kept |
| Veritas.App.StepAndLog | veritas_final_ui.py:325-347 | A channel steps as `ChannelStep` and its line, if any, is appended to the log |
| Veritas.App.Record | veritas_final_ui.py:325-395 | Motion, Human and Face step in that order, each on the same composite, and their lines are logged in that order |
| Veritas.App.Detect | veritas_final_ui.py:247-302 | Returns the signals: motion only if there was a previous frame; the previous frame becomes this one; detection lines are logged |
| Veritas.App.AlarmAndRecord | veritas_final_ui.py:304-395 | The siren step, then the composite built from the log with the detection lines, recorded on the three channels |
| Veritas.App.ProcessFrame | veritas_final_ui.py:244-395 | A read frame: signals, detection lines, siren and channels, where the composite shows the detection lines but none of the channel lines |
| Veritas.App.Tick | veritas_final_ui.py:237-395 | A failed read appends exactly `Camera read failed.` and changes nothing else: previous frame, switches, siren, writers, counters, writer events. A read frame behaves as `ProcessFrame` |
| Veritas.App.OnClose | veritas_final_ui.py:420-434 | Stops the siren if the mixer is up, releases each channel's writer if it is open, and leaves no writer lifecycle open |

## Left out

- The customtkinter window, the console writes of `append_log`, the video label and the switch colours are presentation only.
- OpenCV pixel work is not modelled: resizing, colour conversion, blur, difference, threshold, dilation, contour search, drawing of boxes and of the time stamp on the frame, `hconcat`. A frame is an opaque handle, and the contour areas are an input.
- YOLO and face_recognition inference are foreign calls. Their outputs are inputs: class names per box, and face boxes.
- Floating point is not modelled: the confidence label, float contour areas, `FPS` and the rescheduling delay.
- `root.after` scheduling is not modelled; one call of `Tick` is one tick.
- The file system is not modelled:
  - `resource_path`, `ensure_dirs` and `os.path.exists` are not modelled; the last enters only as the `soundExists` input;
  - `cv2.VideoWriter` is assumed to open, as the source assumes; it never checks `isOpened()`.
- The clock is a parameter. The source calls `datetime.now()` separately for the log stamp and for each `timestamp_filename`. The model uses one reading per tick.
- EventLog.KeepLast: for `n = 0` it returns the empty sequence, where Python's `s[-0:]` is all of `s`; the source slices only with 200 and 18.
- Naming.TimestampFilename: only four-digit years (1000 to 9999) are modelled.
- Naming.TimestampFilename: `os.path.join` is modelled with the POSIX separator only.
- Recording.ChannelStep takes the file name the tick's clock gives (`NewPath`), and `Channel.Step` computes it only when it opens a writer, as the source does. The pure step, its runs and their lemmas are about any path.
- Alarm.AlarmStep: a load or play that raises (`playFails`) still counts as a `Play` sent. The source does not say whether the device received it; the latch stays clear, as in the source.
- Veritas.App.OnClose: an exception from one writer's release skips the remaining releases in the source. The model assumes releases do not raise.
- Veritas.App.OnClose: releasing the camera, `destroyAllWindows` and destroying the window are not modelled.
- Veritas.App.OnClose: each channel keeps its own event trace, so the order of releases across channels is not recorded.
- Veritas.App.OnClose: the writer fields are not reset, as in the source; only the release events are recorded.
- A toggle-off does not reset the miss counter. The model follows the code here. `Recording.StaleMissesUnobservable` proves that the stale value never shows.
- Person labels are lower-cased over ASCII only. For the word `person` this agrees with Python's `str.lower`, since no other character lower-cases to one of its letters.
