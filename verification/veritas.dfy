/** The frame controller of the surveillance station (`VeritasApp`): one tick
    reads a frame, extracts the three signals, logs the detections, drives the
    alarm latch, builds the composite frame and steps the three recording
    channels, Motion, Human and Face, in that order. */
module Veritas {
  import opened Wrappers
  import opened Text
  import opened Clock
  import opened Naming
  import opened EventLog
  import opened Panel
  import opened Frames
  import opened Signals
  import opened Alarm
  import opened Recording

  const CAMERA_FAILED: string := "Camera read failed."

  /** What one tick receives from its collaborators. */
  datatype FrameInput = FrameInput(
    readOk: bool,                // whether `cap.read()` returned a frame
    frame: Image,                // the frame, resized to the video area
    faces: seq<Box>,             // face boxes found on the quarter-size frame
    results: seq<seq<string>>,   // YOLO results: the class name of each box
    gray: Image,                 // the blurred grayscale copy of this frame
    contourAreas: seq<int>,      // areas of the contours of the difference to the previous copy
    now: DateTime,               // the wall clock
    soundExists: bool,           // whether the siren file exists
    playFails: bool)             // whether loading or starting the siren raises

  /** The three signals of one frame. */
  datatype Detections = Detections(motion: bool, human: bool, faces: nat)

  /** What the detectors report for a frame that was read: motion only when a
      previous frame exists, a person among the YOLO boxes, the number of faces. */
  ghost function Detected(hadPrevious: bool, inp: FrameInput): Detections {
    Detections(MotionSignal(hadPrevious, inp.contourAreas), HumanSignal(inp.results), |inp.faces|)
  }

  /** A detection line: the log stamp in brackets, then what was seen. */
  function DetectionLine(now: DateTime, what: string): string
    requires ValidClock(now)
  {
    "[" + LogStamp(now) + "] " + what
  }

  function FaceLine(count: nat): string {
    "Face detected (" + NatToString(count) + ")"
  }

  /** The detection lines of one tick, in the order motion, human, face. */
  function DetectionLines(now: DateTime, motion: bool, persons: bool, faceCount: nat): seq<string>
    requires ValidClock(now)
  {
    (if motion then [DetectionLine(now, "Motion detected")] else []) +
    (if persons then [DetectionLine(now, "Human detected")] else []) +
    (if faceCount > 0 then [DetectionLine(now, FaceLine(faceCount))] else [])
  }

  /** A detection line carries its clock reading, recoverable from the
      19 characters inside the brackets, and then exactly `what`. */
  lemma DetectionLineParts(now: DateTime, what: string)
    requires ValidClock(now)
    ensures var line := DetectionLine(now, what);
      |line| == 22 + |what| && line[0] == '[' && ParseLogStamp(line[1..20]) == Some(now) &&
      line[20..22] == "] " && line[22..] == what
  {
    var line := DetectionLine(now, what);
    var stamp := LogStamp(now);
    LogStampRoundTrip(now);
    assert line == "[" + (stamp + ("] " + what));
    assert line[1..] == stamp + ("] " + what);
    assert line[1..20] == line[1..][..19];
  }

  /** The face line states the number of faces in plain decimal. */
  lemma FaceLineCount(count: nat)
    ensures var s := FaceLine(count); var digits := s[15..|s| - 1];
      |s| >= 17 && s[..15] == "Face detected (" && s[|s| - 1] == ')' &&
      AllDigits(digits) && ReadDigits(digits) == count
  {
    var s := FaceLine(count);
    var n := NatToString(count);
    NatToStringReads(count);
    assert s == "Face detected (" + n + ")";
    assert s[15..|s| - 1] == n;
  }

  lemma AppendedSnoc(buffer: seq<string>, lines: seq<string>, line: string)
    ensures Appended(buffer, lines + [line]) == KeepLast(Appended(buffer, lines) + [Truncate(line)], CAPACITY)
  {
    assert (lines + [line])[..|lines|] == lines;
  }

  class App {
    var switches: Switches
    var prevGray: Option<Image>
    const motion: Channel
    const human: Channel
    const face: Channel
    var alarmPlaying: bool
    var audio: seq<AudioCommand>
    var logBuffer: seq<string>

    /** Three distinct channels with their own configuration, each valid; the
        log within its bound; the latch set only after a Play. */
    ghost predicate Valid()
      reads this, motion, human, face
    {
      motion != human && motion != face && human != face &&
      motion.cfg == MOTION_CHANNEL && human.cfg == HUMAN_CHANNEL && face.cfg == FACE_CHANNEL &&
      motion.Valid() && human.Valid() && face.Valid() &&
      |logBuffer| <= CAPACITY && LatchAgrees(alarmPlaying, audio)
    }

    /** The state `__init__` sets up: every switch off, no previous frame, no
        writer, counters at zero, silence, an empty log. */
    constructor ()
      ensures Valid() && fresh(motion) && fresh(human) && fresh(face)
      ensures switches == Switches(false, false, false, false) && prevGray == None
      ensures !alarmPlaying && audio == [] && logBuffer == []
      ensures motion.State() == IDLE && human.State() == IDLE && face.State() == IDLE
      ensures motion.events == [] && human.events == [] && face.events == []
    {
      switches := Switches(false, false, false, false);
      prevGray := None;
      motion := new Channel(MOTION_CHANNEL);
      human := new Channel(HUMAN_CHANNEL);
      face := new Channel(FACE_CHANNEL);
      alarmPlaying := false;
      audio := [];
      logBuffer := [];
    }

    /** `append_log`, its buffer part: store the shortened line, keep the newest 200. */
    method AppendLog(line: string)
      modifies this`logBuffer
      ensures logBuffer == KeepLast(old(logBuffer) + [Truncate(line)], CAPACITY)
    {
      logBuffer := logBuffer + [Truncate(line)];
      logBuffer := KeepLast(logBuffer, CAPACITY);
    }

    /** `_on_switch_change`: the switches now read `sw`, and one status line is logged. */
    method OnSwitchChange(sw: Switches)
      requires Valid()
      modifies this`switches, this`logBuffer
      ensures Valid()
      ensures switches == sw
      ensures logBuffer == Appended(old(logBuffer), [StatusLine(sw)])
    {
      switches := sw;
      AppendLog(StatusLine(sw));
      AppendedSnoc(old(logBuffer), [], StatusLine(sw));
    }

    /** `_build_combined_frame`: the frame beside the panel drawn from the log as it is now. */
    method BuildCombinedFrame(frame: Image) returns (c: Composite)
      ensures c == Composite(frame, PanelRows(logBuffer, LOG_H))
    {
      var rows := DrawLogPanel(logBuffer, LOG_H);
      c := Composite(frame, rows);
    }

    /** Appends a line if there is one; `base` and `lines` say how the buffer came about. */
    method AppendIfAny(line: Option<string>, ghost base: seq<string>, ghost lines: seq<string>)
      requires logBuffer == Appended(base, lines)
      modifies this`logBuffer
      ensures logBuffer == Appended(base, lines + LineSeq(line))
    {
      if line.Some? {
        AppendLog(line.value);
        AppendedSnoc(base, lines, line.value);
      } else {
        assert lines + LineSeq(line) == lines;
      }
    }

    /** The detection lines of one tick, appended in the order motion, human, face. */
    method LogDetections(now: DateTime, motionDetected: bool, persons: bool, faceCount: nat)
      requires ValidClock(now)
      modifies this`logBuffer
      ensures logBuffer == Appended(old(logBuffer), DetectionLines(now, motionDetected, persons, faceCount))
    {
      ghost var base := logBuffer;
      ghost var lines: seq<string> := [];
      var ms := if motionDetected then Some(DetectionLine(now, "Motion detected")) else None;
      var hs := if persons then Some(DetectionLine(now, "Human detected")) else None;
      var fs := if faceCount > 0 then Some(DetectionLine(now, FaceLine(faceCount))) else None;
      AppendIfAny(ms, base, lines);
      lines := lines + LineSeq(ms);
      AppendIfAny(hs, base, lines);
      lines := lines + LineSeq(hs);
      AppendIfAny(fs, base, lines);
      lines := lines + LineSeq(fs);
      assert lines == DetectionLines(now, motionDetected, persons, faceCount);
    }

    /** The siren part of a tick: start it when the alarm switch is on, a
        person is seen, it is not already playing and the sound file exists;
        stop it otherwise if it was playing.  The ghost parameters name the
        state the tick started from. */
    method UpdateAlarm(persons: bool, soundExists: bool, playFails: bool,
                       ghost wasPlaying: bool, ghost alarmOn: bool, ghost sent: seq<AudioCommand>)
      requires Valid()
      requires alarmPlaying == wasPlaying && switches.alarm == alarmOn && audio == sent
      modifies this`alarmPlaying, this`audio
      ensures Valid()
      ensures var a := AlarmStep(wasPlaying, alarmOn, persons, soundExists, playFails);
        alarmPlaying == a.playing && audio == sent + a.commands
    {
      if switches.alarm && persons {
        if !alarmPlaying && soundExists {
          audio := audio + [Play];
          alarmPlaying := !playFails;
        }
      } else if alarmPlaying {
        audio := audio + [Stop];
        alarmPlaying := false;
      }
    }

    /** One channel's step, its line (if any) appended to the log.  The ghost
        parameters name the channel's configuration and the state it starts from. */
    method StepAndLog(ch: Channel, enabled: bool, signal: bool, combined: Composite, now: DateTime,
                      ghost cfg: ChannelConfig, ghost s0: ChannelState, ghost e0: seq<SinkEvent>, ghost b0: seq<string>)
      requires ch.Valid() && ValidClock(now) && |logBuffer| <= CAPACITY
      requires ch.cfg == cfg && ch.State() == s0 && ch.events == e0 && logBuffer == b0
      modifies ch, this`logBuffer
      ensures ch.Valid() && |logBuffer| <= CAPACITY
      ensures var r := ChannelStep(cfg, s0, enabled, signal, combined, NewPath(cfg, now));
        ch.State() == r.state && ch.events == e0 + r.events && logBuffer == Appended(b0, LineSeq(r.line))
    {
      var line := ch.Step(enabled, signal, combined, now);
      AppendIfAny(line, b0, []);
      AppendedBounded(b0, LineSeq(line));
    }

    /** The recording part of a tick: Motion, Human, Face in that order, each
        channel's line appended to the log as it is produced.  The ghost
        parameters name the state the channels start from. */
    method Record(combined: Composite, motionDetected: bool, persons: bool, faceFound: bool, now: DateTime,
                  ghost sw: Switches, ghost sm: ChannelState, ghost sh: ChannelState, ghost sf: ChannelState,
                  ghost em: seq<SinkEvent>, ghost eh: seq<SinkEvent>, ghost ef: seq<SinkEvent>, ghost base: seq<string>)
      requires Valid() && ValidClock(now) && switches == sw
      requires motion.State() == sm && human.State() == sh && face.State() == sf
      requires motion.events == em && human.events == eh && face.events == ef && logBuffer == base
      modifies motion, human, face, this`logBuffer
      ensures Valid()
      ensures var rm := ChannelStep(MOTION_CHANNEL, sm, sw.motion, motionDetected, combined, NewPath(MOTION_CHANNEL, now));
        var rh := ChannelStep(HUMAN_CHANNEL, sh, sw.human, persons, combined, NewPath(HUMAN_CHANNEL, now));
        var rf := ChannelStep(FACE_CHANNEL, sf, sw.face, faceFound, combined, NewPath(FACE_CHANNEL, now));
        motion.State() == rm.state && motion.events == em + rm.events &&
        human.State() == rh.state && human.events == eh + rh.events &&
        face.State() == rf.state && face.events == ef + rf.events &&
        logBuffer == Appended(base, LineSeq(rm.line) + LineSeq(rh.line) + LineSeq(rf.line))
    {
      ghost var rm := ChannelStep(MOTION_CHANNEL, sm, sw.motion, motionDetected, combined, NewPath(MOTION_CHANNEL, now));
      ghost var rh := ChannelStep(HUMAN_CHANNEL, sh, sw.human, persons, combined, NewPath(HUMAN_CHANNEL, now));
      StepAndLog(motion, switches.motion, motionDetected, combined, now, MOTION_CHANNEL, sm, em, base);
      ghost var b1 := logBuffer;
      StepAndLog(human, switches.human, persons, combined, now, HUMAN_CHANNEL, sh, eh, b1);
      ghost var b2 := logBuffer;
      StepAndLog(face, switches.face, faceFound, combined, now, FACE_CHANNEL, sf, ef, b2);
      AppendedAppend(base, LineSeq(rm.line), LineSeq(rh.line));
      ghost var rf := ChannelStep(FACE_CHANNEL, sf, sw.face, faceFound, combined, NewPath(FACE_CHANNEL, now));
      AppendedAppend(base, LineSeq(rm.line) + LineSeq(rh.line), LineSeq(rf.line));
    }

    /** The rest of `loop` once a frame was read. */
    method ProcessFrame(inp: FrameInput) returns (d: Detections)
      requires Valid() && ValidClock(inp.now) && inp.readOk
      modifies this, motion, human, face
      ensures Valid()
      ensures d == Detected(old(prevGray).Some?, inp)
      ensures
        var det := DetectionLines(inp.now, d.motion, d.human, d.faces);
        // the composite shows the log with this tick's detection lines, and nothing after them
        var frame := Composite(inp.frame, PanelRows(Appended(old(logBuffer), det), LOG_H));
        var a := AlarmStep(old(alarmPlaying), old(switches).alarm, d.human, inp.soundExists, inp.playFails);
        var rm := ChannelStep(MOTION_CHANNEL, old(motion.State()), old(switches).motion, d.motion, frame, NewPath(MOTION_CHANNEL, inp.now));
        var rh := ChannelStep(HUMAN_CHANNEL, old(human.State()), old(switches).human, d.human, frame, NewPath(HUMAN_CHANNEL, inp.now));
        var rf := ChannelStep(FACE_CHANNEL, old(face.State()), old(switches).face, d.faces > 0, frame, NewPath(FACE_CHANNEL, inp.now));
        prevGray == Some(inp.gray) && switches == old(switches) &&
        alarmPlaying == a.playing && audio == old(audio) + a.commands &&
        motion.State() == rm.state && motion.events == old(motion.events) + rm.events &&
        human.State() == rh.state && human.events == old(human.events) + rh.events &&
        face.State() == rf.state && face.events == old(face.events) + rf.events &&
        // channel lines follow the detection lines, Motion, Human, Face
        logBuffer == Appended(old(logBuffer), det + LineSeq(rm.line) + LineSeq(rh.line) + LineSeq(rf.line))
    {
      d := Detect(inp);
      AlarmAndRecord(inp, d, old(logBuffer), old(switches), old(alarmPlaying), old(audio),
                     old(motion.State()), old(human.State()), old(face.State()),
                     old(motion.events), old(human.events), old(face.events));
    }

    /** Everything in `loop` after the detectors: the siren, then the
        composite built from the log as it stands after the detection lines,
        recorded on the three channels.  The ghost parameters name the state
        the tick started from. */
    method AlarmAndRecord(inp: FrameInput, d: Detections, ghost base: seq<string>, ghost sw: Switches,
                          ghost wasPlaying: bool, ghost sent: seq<AudioCommand>,
                          ghost sm: ChannelState, ghost sh: ChannelState, ghost sf: ChannelState,
                          ghost em: seq<SinkEvent>, ghost eh: seq<SinkEvent>, ghost ef: seq<SinkEvent>)
      requires Valid() && ValidClock(inp.now)
      requires logBuffer == Appended(base, DetectionLines(inp.now, d.motion, d.human, d.faces))
      requires switches == sw && alarmPlaying == wasPlaying && audio == sent
      requires motion.State() == sm && human.State() == sh && face.State() == sf
      requires motion.events == em && human.events == eh && face.events == ef
      modifies this`alarmPlaying, this`audio, motion, human, face, this`logBuffer
      ensures Valid() && switches == sw
      ensures var a := AlarmStep(wasPlaying, sw.alarm, d.human, inp.soundExists, inp.playFails);
        alarmPlaying == a.playing && audio == sent + a.commands
      ensures var det := DetectionLines(inp.now, d.motion, d.human, d.faces);
        var combined := Composite(inp.frame, PanelRows(Appended(base, det), LOG_H));
        var rm := ChannelStep(MOTION_CHANNEL, sm, sw.motion, d.motion, combined, NewPath(MOTION_CHANNEL, inp.now));
        var rh := ChannelStep(HUMAN_CHANNEL, sh, sw.human, d.human, combined, NewPath(HUMAN_CHANNEL, inp.now));
        var rf := ChannelStep(FACE_CHANNEL, sf, sw.face, d.faces > 0, combined, NewPath(FACE_CHANNEL, inp.now));
        motion.State() == rm.state && motion.events == em + rm.events &&
        human.State() == rh.state && human.events == eh + rh.events &&
        face.State() == rf.state && face.events == ef + rf.events &&
        logBuffer == Appended(base, det + LineSeq(rm.line) + LineSeq(rh.line) + LineSeq(rf.line))
    {
      UpdateAlarm(d.human, inp.soundExists, inp.playFails, wasPlaying, sw.alarm, sent);
      var now := inp.now;
      ghost var det := DetectionLines(now, d.motion, d.human, d.faces);
      var combined := BuildCombinedFrame(inp.frame);
      ghost var rm := ChannelStep(MOTION_CHANNEL, sm, sw.motion, d.motion, combined, NewPath(MOTION_CHANNEL, now));
      ghost var rh := ChannelStep(HUMAN_CHANNEL, sh, sw.human, d.human, combined, NewPath(HUMAN_CHANNEL, now));
      ghost var rf := ChannelStep(FACE_CHANNEL, sf, sw.face, d.faces > 0, combined, NewPath(FACE_CHANNEL, now));
      Record(combined, d.motion, d.human, d.faces > 0, now, sw, sm, sh, sf, em, eh, ef, logBuffer);
      AppendedAppend(base, det, LineSeq(rm.line) + LineSeq(rh.line) + LineSeq(rf.line));
      SeqAssoc(det, LineSeq(rm.line) + LineSeq(rh.line), LineSeq(rf.line));
      SeqAssoc(det, LineSeq(rm.line), LineSeq(rh.line));
    }

    /** The detection part of `loop`: the three signals, the previous blurred
        frame replaced by this one, and one log line per signal raised. */
    method Detect(inp: FrameInput) returns (d: Detections)
      requires Valid() && ValidClock(inp.now)
      modifies this`prevGray, this`logBuffer
      ensures Valid()
      ensures d == Detected(old(prevGray).Some?, inp)
      ensures prevGray == Some(inp.gray)
      ensures logBuffer == Appended(old(logBuffer), DetectionLines(inp.now, d.motion, d.human, d.faces))
    {
      // face detection: boxes back to full size
      var facesScaled := ScaleFaces(inp.faces);

      // person detection
      var persons := DetectPersons(inp.results);

      // motion detection against the previous blurred frame
      var motionDetected := false;
      if prevGray.Some? {
        motionDetected := DetectMotion(inp.contourAreas);
      }
      prevGray := Some(inp.gray);

      d := Detections(motionDetected, persons, |facesScaled|);
      LogDetections(inp.now, d.motion, d.human, d.faces);
      AppendedBounded(old(logBuffer), DetectionLines(inp.now, d.motion, d.human, d.faces));
    }

    /** `loop`: one tick of the controller. */
    method Tick(inp: FrameInput)
      requires Valid() && ValidClock(inp.now)
      modifies this, motion, human, face
      ensures Valid()
      // a failed read logs one line and touches nothing else
      ensures !inp.readOk ==>
        logBuffer == Appended(old(logBuffer), [CAMERA_FAILED]) &&
        prevGray == old(prevGray) && switches == old(switches) &&
        alarmPlaying == old(alarmPlaying) && audio == old(audio) &&
        unchanged(motion, human, face)
      ensures inp.readOk ==>
        var d := Detected(old(prevGray).Some?, inp);
        var det := DetectionLines(inp.now, d.motion, d.human, d.faces);
        // the composite shows the log with this tick's detection lines, and nothing after them
        var frame := Composite(inp.frame, PanelRows(Appended(old(logBuffer), det), LOG_H));
        var a := AlarmStep(old(alarmPlaying), old(switches).alarm, d.human, inp.soundExists, inp.playFails);
        var rm := ChannelStep(MOTION_CHANNEL, old(motion.State()), old(switches).motion, d.motion, frame, NewPath(MOTION_CHANNEL, inp.now));
        var rh := ChannelStep(HUMAN_CHANNEL, old(human.State()), old(switches).human, d.human, frame, NewPath(HUMAN_CHANNEL, inp.now));
        var rf := ChannelStep(FACE_CHANNEL, old(face.State()), old(switches).face, d.faces > 0, frame, NewPath(FACE_CHANNEL, inp.now));
        prevGray == Some(inp.gray) && switches == old(switches) &&
        alarmPlaying == a.playing && audio == old(audio) + a.commands &&
        motion.State() == rm.state && motion.events == old(motion.events) + rm.events &&
        human.State() == rh.state && human.events == old(human.events) + rh.events &&
        face.State() == rf.state && face.events == old(face.events) + rf.events &&
        // channel lines follow the detection lines, Motion, Human, Face
        logBuffer == Appended(old(logBuffer), det + LineSeq(rm.line) + LineSeq(rh.line) + LineSeq(rf.line))
    {
      if !inp.readOk {
        AppendLog(CAMERA_FAILED);
        AppendedSnoc(old(logBuffer), [], CAMERA_FAILED);
      } else {
        var d := ProcessFrame(inp);
      }
    }

    /** `on_close`: stop the siren if the mixer is up, and release every open
        writer in the order Motion, Human, Face.  The writer fields themselves
        are left as they are. */
    method OnClose(mixerReady: bool)
      requires Valid()
      modifies this`audio, motion`events, human`events, face`events
      ensures audio == old(audio) + (if mixerReady then [Stop] else [])
      ensures motion.events == old(motion.events) + (if motion.writer.Some? then [Release] else [])
      ensures human.events == old(human.events) + (if human.writer.Some? then [Release] else [])
      ensures face.events == old(face.events) + (if face.writer.Some? then [Release] else [])
      ensures Replay(motion.events) == Some(false) && Replay(human.events) == Some(false) && Replay(face.events) == Some(false)
    {
      if mixerReady {
        audio := audio + [Stop];
      }
      motion.Close();
      human.Close();
      face.Close();
    }
  }
}
