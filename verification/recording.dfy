/** The recording channels: one hysteresis state machine per detector
    (Motion, Human, Face), each owning at most one open video writer.
    The writer (`cv2.VideoWriter`) is modelled by the lifecycle events sent to it. */
module Recording {
  import opened Wrappers
  import opened Clock
  import opened Naming
  import opened Frames

  /** What a channel does to its video file. */
  datatype SinkEvent = Open(path: string) | Write(frame: Composite) | Release

  /** What distinguishes the three channels: file prefix, directory and stop threshold. */
  datatype ChannelConfig = ChannelConfig(prefix: string, folder: string, stopFrames: nat)

  const MOTION_CHANNEL := ChannelConfig("Motion", "MOTION", 20)
  const HUMAN_CHANNEL := ChannelConfig("Human", "HUMAN", 20)
  const FACE_CHANNEL := ChannelConfig("Face", "FACE", 20)

  /** The writer (`None`, or the path of the open file) and the miss counter. */
  datatype ChannelState = ChannelState(writer: Option<string>, misses: nat)

  const IDLE := ChannelState(None, 0)

  datatype StepResult = StepResult(state: ChannelState, events: seq<SinkEvent>, line: Option<string>)

  function StartedLine(path: string): string {
    "Recording started: " + path
  }

  function StoppedLine(cfg: ChannelConfig): string {
    cfg.prefix + " recording stopped."
  }

  function ToggleOffLine(cfg: ChannelConfig): string {
    cfg.prefix + " recording stopped (toggle OFF)."
  }

  predicate OpensIn(events: seq<SinkEvent>) {
    exists i :: 0 <= i < |events| && events[i].Open?
  }

  /** The file a recording of `cfg` opened at clock reading `now` is written to. */
  function NewPath(cfg: ChannelConfig, now: DateTime): string
    requires ValidClock(now)
  {
    TimestampFilename(cfg.prefix, cfg.folder, now)
  }

  /** One tick of one channel: switch `enabled`, this frame's `signal`, the
      composite `frame` to record and `path`, the file name the tick's clock
      gives a recording opened on it (`NewPath`). */
  function ChannelStep(cfg: ChannelConfig, st: ChannelState, enabled: bool, signal: bool, frame: Composite, path: string): StepResult
  {
    if enabled then
      if signal then
        if st.writer.None? then
          StepResult(ChannelState(Some(path), 0), [Open(path), Write(frame)], Some(StartedLine(path)))
        else
          StepResult(ChannelState(st.writer, 0), [Write(frame)], None)
      else if st.writer.Some? then
        if st.misses + 1 >= cfg.stopFrames then
          StepResult(ChannelState(None, 0), [Release], Some(StoppedLine(cfg)))
        else
          StepResult(ChannelState(st.writer, st.misses + 1), [], None)
      else
        StepResult(st, [], None)
    else if st.writer.Some? then
      StepResult(ChannelState(None, st.misses), [Release], Some(ToggleOffLine(cfg)))
    else
      StepResult(st, [], None)
  }

  /** What one tick of a channel promises. */
  lemma ChannelStepContract(cfg: ChannelConfig, st: ChannelState, enabled: bool, signal: bool, frame: Composite, path: string)
    ensures var r := ChannelStep(cfg, st, enabled, signal, frame, path);
      // a writer is opened only when enabled, signalled and none is open, at
      // the time-stamped path, and one start line naming that path is logged
      (OpensIn(r.events) <==> enabled && signal && st.writer.None?) &&
      (OpensIn(r.events) ==>
         r.events[0] == Open(path) && r.state.writer == Some(path) && r.line == Some(StartedLine(path))) &&
      // this tick's composite is written exactly once on a signalled enabled
      // tick, and nothing else is ever written
      (Write(frame) in r.events <==> enabled && signal) &&
      (forall e :: e in r.events && e.Write? ==> e == Write(frame)) &&
      (enabled && signal ==>
         r.state.misses == 0 && r.events == (if st.writer.None? then [Open(path), Write(frame)] else [Write(frame)])) &&
      // an open writer is released when the channel is switched off, whatever
      // the signal, or on the miss that reaches the threshold; one line is logged
      (Release in r.events <==> st.writer.Some? && (!enabled || (!signal && st.misses + 1 >= cfg.stopFrames))) &&
      (Release in r.events ==> r.events == [Release] && r.state.writer.None? &&
                               r.line == Some(if enabled then StoppedLine(cfg) else ToggleOffLine(cfg))) &&
      (Release in r.events && enabled ==> r.state.misses == 0) &&
      // a miss while recording, below the threshold, only counts
      (enabled && !signal && st.writer.Some? && st.misses + 1 < cfg.stopFrames ==>
         r == StepResult(ChannelState(st.writer, st.misses + 1), [], None)) &&
      // an open writer stays the same writer
      (st.writer.Some? && r.state.writer.Some? ==> r.state.writer == st.writer) &&
      // with no writer open, a miss or a disabled channel changes nothing
      (st.writer.None? && !(enabled && signal) ==> r == StepResult(st, [], None)) &&
      // a disabled channel holds no writer afterwards, and the toggle-off
      // release leaves the miss counter as it was
      (!enabled ==> r.state.writer.None? && r.state.misses == st.misses)
  {
    var r := ChannelStep(cfg, st, enabled, signal, frame, path);
    if enabled && signal && st.writer.None? {
      assert r.events[0].Open?;
    }
  }

  // ---------------------------------------------------------------------
  // Writer lifecycle

  /** The writer after one event, or `None` for an event the lifecycle forbids
      (opening a second writer, writing or releasing with none open). */
  function LifecycleNext(open: Option<bool>, e: SinkEvent): Option<bool> {
    match open
    case None => None
    case Some(isOpen) =>
      match e
      case Open(_) => if isOpen then None else Some(true)
      case Write(_) => if isOpen then Some(true) else None
      case Release => if isOpen then Some(false) else None
  }

  /** `Some(isOpen)` when `events` is a legal writer lifecycle from no writer. */
  function Replay(events: seq<SinkEvent>): Option<bool> {
    if events == [] then Some(false)
    else LifecycleNext(Replay(events[..|events| - 1]), events[|events| - 1])
  }

  lemma ReplaySnoc(events: seq<SinkEvent>, e: SinkEvent)
    ensures Replay(events + [e]) == LifecycleNext(Replay(events), e)
  {
    assert (events + [e])[..|events|] == events;
  }

  /** A step extends a legal lifecycle to a legal lifecycle that agrees with
      the new writer: no second writer is ever opened, and nothing is written
      to or released from a writer that is not open. */
  lemma StepKeepsLifecycle(cfg: ChannelConfig, st: ChannelState, enabled: bool, signal: bool, frame: Composite, path: string,
                           events: seq<SinkEvent>)
    requires Replay(events) == Some(st.writer.Some?)
    ensures var r := ChannelStep(cfg, st, enabled, signal, frame, path);
      Replay(events + r.events) == Some(r.state.writer.Some?)
  {
    var r := ChannelStep(cfg, st, enabled, signal, frame, path);
    if |r.events| == 1 {
      ReplaySnoc(events, r.events[0]);
      assert r.events == [r.events[0]];
    } else if |r.events| == 2 {
      ReplaySnoc(events, r.events[0]);
      ReplaySnoc(events + [r.events[0]], r.events[1]);
      assert events + r.events == events + [r.events[0]] + [r.events[1]];
    } else {
      assert events + r.events == events;
    }
  }

  /** While a writer is open its miss counter stays below the threshold. */
  predicate MissesBelowThreshold(cfg: ChannelConfig, st: ChannelState) {
    st.writer.Some? ==> st.misses < cfg.stopFrames
  }

  lemma StepKeepsMissesBelowThreshold(cfg: ChannelConfig, st: ChannelState, enabled: bool, signal: bool, frame: Composite, path: string)
    requires cfg.stopFrames >= 1 && MissesBelowThreshold(cfg, st)
    ensures MissesBelowThreshold(cfg, ChannelStep(cfg, st, enabled, signal, frame, path).state)
  {
  }

  // ---------------------------------------------------------------------
  // Runs of many ticks

  /** One tick as a channel sees it; `path` is the tick's `NewPath`. */
  datatype ChannelInput = ChannelInput(enabled: bool, signal: bool, frame: Composite, path: string)

  datatype RunResult = RunResult(state: ChannelState, events: seq<SinkEvent>, lines: seq<string>)

  function LineSeq(line: Option<string>): seq<string> {
    if line.Some? then [line.value] else []
  }

  /** A channel over a sequence of ticks: final state, everything sent to the
      writer, and every log line, in order. */
  function Run(cfg: ChannelConfig, st: ChannelState, inputs: seq<ChannelInput>): RunResult
  {
    if inputs == [] then RunResult(st, [], [])
    else
      var prev := Run(cfg, st, inputs[..|inputs| - 1]);
      var i := inputs[|inputs| - 1];
      var r := ChannelStep(cfg, prev.state, i.enabled, i.signal, i.frame, i.path);
      RunResult(r.state, prev.events + r.events, prev.lines + LineSeq(r.line))
  }

  /** Over any run the writer lifecycle stays legal: never two writers at once. */
  lemma {:induction false} RunKeepsLifecycle(cfg: ChannelConfig, st: ChannelState, inputs: seq<ChannelInput>, events: seq<SinkEvent>)
    requires Replay(events) == Some(st.writer.Some?)
    ensures var r := Run(cfg, st, inputs);
      Replay(events + r.events) == Some(r.state.writer.Some?)
  {
    if inputs == [] {
      assert events + [] == events;
    } else {
      var init := inputs[..|inputs| - 1];
      RunKeepsLifecycle(cfg, st, init, events);
      var prev := Run(cfg, st, init);
      var i := inputs[|inputs| - 1];
      StepKeepsLifecycle(cfg, prev.state, i.enabled, i.signal, i.frame, i.path, events + prev.events);
      var r := ChannelStep(cfg, prev.state, i.enabled, i.signal, i.frame, i.path);
      assert events + prev.events + r.events == events + (prev.events + r.events);
    }
  }

  /** One more tick at the end of a run. */
  lemma RunSnoc(cfg: ChannelConfig, st: ChannelState, inputs: seq<ChannelInput>, i: ChannelInput)
    ensures var prev := Run(cfg, st, inputs);
      var r := ChannelStep(cfg, prev.state, i.enabled, i.signal, i.frame, i.path);
      Run(cfg, st, inputs + [i]) == RunResult(r.state, prev.events + r.events, prev.lines + LineSeq(r.line))
  {
    assert (inputs + [i])[..|inputs|] == inputs;
  }

  /** The composition of two runs, as one result. */
  function Then(ra: RunResult, rb: RunResult): RunResult {
    RunResult(rb.state, ra.events + rb.events, ra.lines + rb.lines)
  }

  lemma RunAppendStep(cfg: ChannelConfig, st: ChannelState, a: seq<ChannelInput>, b: seq<ChannelInput>, i: ChannelInput)
    requires Run(cfg, st, a + b) == Then(Run(cfg, st, a), Run(cfg, Run(cfg, st, a).state, b))
    ensures Run(cfg, st, a + b + [i]) == Then(Run(cfg, st, a), Run(cfg, Run(cfg, st, a).state, b + [i]))
  {
    var ra := Run(cfg, st, a);
    var rb := Run(cfg, ra.state, b);
    RunSnoc(cfg, st, a + b, i);
    RunSnoc(cfg, ra.state, b, i);
    var r := ChannelStep(cfg, rb.state, i.enabled, i.signal, i.frame, i.path);
    SeqAssoc(ra.events, rb.events, r.events);
    SeqAssoc(ra.lines, rb.lines, LineSeq(r.line));
  }

  /** Running over `a` then `b` is running over `a + b`. */
  lemma {:induction false} RunAppend(cfg: ChannelConfig, st: ChannelState, a: seq<ChannelInput>, b: seq<ChannelInput>)
    ensures Run(cfg, st, a + b) == Then(Run(cfg, st, a), Run(cfg, Run(cfg, st, a).state, b))
  {
    if b == [] {
      var ra := Run(cfg, st, a);
      assert a + b == a;
      assert ra.events + [] == ra.events && ra.lines + [] == ra.lines;
    } else {
      var binit := b[..|b| - 1];
      var i := b[|b| - 1];
      assert b == binit + [i];
      assert a + b == (a + binit) + [i];
      RunAppend(cfg, st, a, binit);
      RunAppendStep(cfg, st, a, binit, i);
    }
  }

  /** Every tick is enabled and without signal. */
  predicate AllMisses(inputs: seq<ChannelInput>) {
    forall i :: 0 <= i < |inputs| ==> inputs[i].enabled && !inputs[i].signal
  }

  /** The grace period: from an open writer with `m` misses, `k` more signal-less
      ticks only count while `m + k` is below the threshold (nothing written,
      nothing logged); the tick on which it reaches the threshold releases the
      writer, logs one stop line and resets the counter. */
  lemma {:induction false} GraceThenStop(cfg: ChannelConfig, path: string, m: nat, inputs: seq<ChannelInput>)
    requires AllMisses(inputs)
    requires m + |inputs| <= cfg.stopFrames
    ensures var r := Run(cfg, ChannelState(Some(path), m), inputs);
      if m + |inputs| < cfg.stopFrames then
        r == RunResult(ChannelState(Some(path), m + |inputs|), [], [])
      else if |inputs| > 0 then
        r == RunResult(IDLE, [Release], [StoppedLine(cfg)])
      else
        r == RunResult(ChannelState(Some(path), m), [], [])
  {
    if inputs != [] {
      var init := inputs[..|inputs| - 1];
      GraceThenStop(cfg, path, m, init);
    }
  }

  /** The miss counter left behind by a toggle-off cannot be observed: two
      channels that differ only in the counter of a closed writer behave the
      same on every run. */
  predicate SameObservable(s1: ChannelState, s2: ChannelState) {
    s1.writer == s2.writer && (s1.writer.Some? ==> s1.misses == s2.misses)
  }

  lemma {:induction false} StaleMissesUnobservable(cfg: ChannelConfig, s1: ChannelState, s2: ChannelState, inputs: seq<ChannelInput>)
    requires SameObservable(s1, s2)
    ensures var r1, r2 := Run(cfg, s1, inputs), Run(cfg, s2, inputs);
      r1.events == r2.events && r1.lines == r2.lines && SameObservable(r1.state, r2.state)
  {
    if inputs != [] {
      StaleMissesUnobservable(cfg, s1, s2, inputs[..|inputs| - 1]);
    }
  }

  // ---------------------------------------------------------------------
  // One start line per writer opened

  predicate IsStartedLine(line: string) {
    |line| >= 19 && line[..19] == "Recording started: "
  }

  function CountOpens(events: seq<SinkEvent>): nat {
    if events == [] then 0
    else CountOpens(events[..|events| - 1]) + (if events[|events| - 1].Open? then 1 else 0)
  }

  function CountStarted(lines: seq<string>): nat {
    if lines == [] then 0
    else CountStarted(lines[..|lines| - 1]) + (if IsStartedLine(lines[|lines| - 1]) then 1 else 0)
  }

  lemma {:induction false} CountOpensAppend(a: seq<SinkEvent>, b: seq<SinkEvent>)
    ensures CountOpens(a + b) == CountOpens(a) + CountOpens(b)
  {
    if b != [] {
      CountOpensAppend(a, b[..|b| - 1]);
      assert (a + b)[..|a + b| - 1] == a + b[..|b| - 1];
    } else {
      assert a + b == a;
    }
  }

  lemma {:induction false} CountStartedAppend(a: seq<string>, b: seq<string>)
    ensures CountStarted(a + b) == CountStarted(a) + CountStarted(b)
  {
    if b != [] {
      CountStartedAppend(a, b[..|b| - 1]);
      assert (a + b)[..|a + b| - 1] == a + b[..|b| - 1];
    } else {
      assert a + b == a;
    }
  }

  /** The three channels of the controller. */
  predicate KnownChannel(cfg: ChannelConfig) {
    cfg == MOTION_CHANNEL || cfg == HUMAN_CHANNEL || cfg == FACE_CHANNEL
  }

  lemma CountOpensTwo(a: SinkEvent, b: SinkEvent)
    ensures CountOpens([a, b]) == CountOpens([a]) + CountOpens([b])
  {
    assert [a, b][..1] == [a];
    assert [a][..0] == [];
  }

  /** The stop lines of a controller channel start with its prefix, never with
      the start-line text. */
  lemma PrefixedNotStarted(cfg: ChannelConfig, rest: string)
    requires KnownChannel(cfg)
    ensures !IsStartedLine(cfg.prefix + rest)
  {
    var line := cfg.prefix + rest;
    assert line[0] == cfg.prefix[0];
    if |line| >= 19 {
      assert line[..19][0] == line[0];
    }
  }

  lemma StepStartedLines(cfg: ChannelConfig, st: ChannelState, enabled: bool, signal: bool, frame: Composite, path: string)
    requires KnownChannel(cfg)
    ensures var r := ChannelStep(cfg, st, enabled, signal, frame, path);
      CountStarted(LineSeq(r.line)) == CountOpens(r.events)
  {
    var r := ChannelStep(cfg, st, enabled, signal, frame, path);
    if enabled && signal && st.writer.None? {
      assert r.events == [Open(path), Write(frame)];
      CountOpensTwo(Open(path), Write(frame));
      assert [Open(path)][..0] == [] && [Write(frame)][..0] == [];
      assert r.line == Some(StartedLine(path));
      assert StartedLine(path)[..19] == "Recording started: ";
      assert [StartedLine(path)][..0] == [];
    } else if r.line.Some? {
      assert r.events == [Release];
      assert [Release][..0] == [];
      var line: string := r.line.value;
      PrefixedNotStarted(cfg, " recording stopped.");
      PrefixedNotStarted(cfg, " recording stopped (toggle OFF).");
      assert !IsStartedLine(line);
      var one: seq<string> := [line];
      assert one[..0] == [];
    } else if r.events != [] {
      assert r.events == [Write(frame)];
      assert [Write(frame)][..0] == [];
    }
  }

  /** Over any run of a controller channel, exactly one "Recording started"
      line is logged per writer opened. */
  lemma {:induction false} OneStartLinePerOpen(cfg: ChannelConfig, st: ChannelState, inputs: seq<ChannelInput>)
    requires KnownChannel(cfg)
    ensures var r := Run(cfg, st, inputs);
      CountStarted(r.lines) == CountOpens(r.events)
  {
    if inputs != [] {
      var init := inputs[..|inputs| - 1];
      OneStartLinePerOpen(cfg, st, init);
      var prev := Run(cfg, st, init);
      var i := inputs[|inputs| - 1];
      var r := ChannelStep(cfg, prev.state, i.enabled, i.signal, i.frame, i.path);
      StepStartedLines(cfg, prev.state, i.enabled, i.signal, i.frame, i.path);
      CountOpensAppend(prev.events, r.events);
      CountStartedAppend(prev.lines, LineSeq(r.line));
    }
  }

  // ---------------------------------------------------------------------
  // Scenarios

  /** Every tick is enabled and signalled. */
  predicate AllHits(inputs: seq<ChannelInput>) {
    forall i :: 0 <= i < |inputs| ==> inputs[i].enabled && inputs[i].signal
  }

  /** The frames of `inputs`, each written once, in order. */
  function Writes(inputs: seq<ChannelInput>): (w: seq<SinkEvent>)
    ensures |w| == |inputs|
  {
    seq(|inputs|, j requires 0 <= j < |inputs| => Write(inputs[j].frame))
  }

  /** While the signal holds, an open writer receives every frame, in order,
      and the miss counter is zero. */
  lemma {:induction false} HitsWriteEveryFrame(cfg: ChannelConfig, path: string, m: nat, inputs: seq<ChannelInput>)
    requires AllHits(inputs) && |inputs| > 0
    ensures Run(cfg, ChannelState(Some(path), m), inputs) == RunResult(ChannelState(Some(path), 0), Writes(inputs), [])
  {
    var init := inputs[..|inputs| - 1];
    if init != [] {
      HitsWriteEveryFrame(cfg, path, m, init);
    }
    assert Writes(inputs) == Writes(init) + [Write(inputs[|inputs| - 1].frame)];
  }

  /** The first signalled tick of an idle, enabled channel opens a writer at the
      tick's path, writes its frame and logs the start. */
  lemma FirstHitOpens(cfg: ChannelConfig, i: ChannelInput)
    requires i.enabled && i.signal
    ensures Run(cfg, IDLE, [i]) == RunResult(ChannelState(Some(i.path), 0), [Open(i.path), Write(i.frame)], [StartedLine(i.path)])
  {
    assert [i][..0] == [];
  }

  /** A signal at tick 0, none at ticks 1 to 19 and one at tick 20: the writer
      opened at tick 0 stays open throughout and receives exactly the frames
      of ticks 0 and 20. */
  lemma {:induction false} GapBelowThresholdKeepsRecording(cfg: ChannelConfig, inputs: seq<ChannelInput>)
    requires cfg.stopFrames == 20 && |inputs| == 21
    requires inputs[0].enabled && inputs[0].signal && inputs[20].enabled && inputs[20].signal
    requires AllMisses(inputs[1..20])
    ensures var path := inputs[0].path;
      Run(cfg, IDLE, inputs) ==
      RunResult(ChannelState(Some(path), 0), [Open(path), Write(inputs[0].frame), Write(inputs[20].frame)], [StartedLine(path)])
  {
    var path := inputs[0].path;
    var first, gap, last := [inputs[0]], inputs[1..20], [inputs[20]];
    assert inputs == first + gap + last;
    FirstHitOpens(cfg, inputs[0]);
    RunAppend(cfg, IDLE, first, gap);
    GraceThenStop(cfg, path, 0, gap);
    RunAppend(cfg, IDLE, first + gap, last);
    HitsWriteEveryFrame(cfg, path, 19, last);
  }

  /** A signal at tick 0 and none at ticks 1 to 20: the writer is released at
      tick 20, exactly once, with one stop line, and nothing is written after tick 0. */
  lemma {:induction false} TwentyMissesStop(cfg: ChannelConfig, inputs: seq<ChannelInput>)
    requires cfg.stopFrames == 20 && |inputs| == 21
    requires inputs[0].enabled && inputs[0].signal && AllMisses(inputs[1..])
    ensures var path := inputs[0].path;
      Run(cfg, IDLE, inputs) ==
      RunResult(IDLE, [Open(path), Write(inputs[0].frame), Release], [StartedLine(path), StoppedLine(cfg)])
  {
    var path := inputs[0].path;
    var first, rest := [inputs[0]], inputs[1..];
    assert inputs == first + rest;
    FirstHitOpens(cfg, inputs[0]);
    RunAppend(cfg, IDLE, first, rest);
    GraceThenStop(cfg, path, 0, rest);
  }

  /** A burst of signalled ticks on an idle channel: one writer opened at the
      first tick's path, every frame of the burst written to it. */
  lemma {:induction false} BurstFromIdle(cfg: ChannelConfig, inputs: seq<ChannelInput>)
    requires AllHits(inputs) && |inputs| > 0
    ensures var path := inputs[0].path;
      Run(cfg, IDLE, inputs) == RunResult(ChannelState(Some(path), 0), [Open(path)] + Writes(inputs), [StartedLine(path)])
  {
    WritesCons(inputs);
    if |inputs| == 1 {
      assert inputs == [inputs[0]];
      FirstHitOpens(cfg, inputs[0]);
    } else {
      var a, b := [inputs[0]], inputs[1..];
      assert inputs == a + b;
      var path := inputs[0].path;
      FirstHitOpens(cfg, inputs[0]);
      HitsWriteEveryFrame(cfg, path, 0, b);
      RunAppend(cfg, IDLE, a, b);
      ThenBurst(path, inputs[0].frame, Writes(b), Run(cfg, IDLE, a), Run(cfg, Run(cfg, IDLE, a).state, b));
    }
  }

  lemma ThenBurst(path: string, f: Composite, w: seq<SinkEvent>, ra: RunResult, rb: RunResult)
    requires ra == RunResult(ChannelState(Some(path), 0), [Open(path), Write(f)], [StartedLine(path)])
    requires rb == RunResult(ChannelState(Some(path), 0), w, [])
    ensures Then(ra, rb) == RunResult(ChannelState(Some(path), 0), [Open(path)] + ([Write(f)] + w), [StartedLine(path)])
  {
    SeqAssoc([Open(path)], [Write(f)], w);
  }

  lemma WritesCons(inputs: seq<ChannelInput>)
    requires |inputs| > 0
    ensures Writes(inputs) == [Write(inputs[0].frame)] + Writes(inputs[1..])
  {
  }

  /** Twenty-five frames with the signal on frames 0-4 and 20-24 only: one
      writer, opened at frame 0, receives exactly those ten frames and is still
      open at the end (the gap of 15 is below the threshold). */
  lemma {:induction false} TwoBurstsOneClip(cfg: ChannelConfig, inputs: seq<ChannelInput>)
    requires cfg.stopFrames == 20 && |inputs| == 25
    requires AllHits(inputs[..5]) && AllMisses(inputs[5..20]) && AllHits(inputs[20..])
    ensures var path := inputs[0].path;
      var r := Run(cfg, IDLE, inputs);
      r.state.writer == Some(path) &&
      r.events == [Open(path)] + Writes(inputs[..5]) + Writes(inputs[20..]) &&
      |r.events| == 11 && r.lines == [StartedLine(path)]
  {
    var ab, c, d := inputs[..5], inputs[5..20], inputs[20..];
    assert inputs == ab + c + d;
    assert ab[0] == inputs[0];
    var path := inputs[0].path;
    BurstFromIdle(cfg, ab);
    var r1 := Run(cfg, IDLE, ab);
    assert r1 == RunResult(ChannelState(Some(path), 0), [Open(path)] + Writes(ab), [StartedLine(path)]);
    GraceThenStop(cfg, path, 0, c);
    var r2 := Run(cfg, r1.state, c);
    assert r2 == RunResult(ChannelState(Some(path), 15), [], []);
    RunAppend(cfg, IDLE, ab, c);
    var r12 := Run(cfg, IDLE, ab + c);
    assert r12 == RunResult(ChannelState(Some(path), 15), [Open(path)] + Writes(ab), [StartedLine(path)]);
    HitsWriteEveryFrame(cfg, path, 15, d);
    var r3 := Run(cfg, r12.state, d);
    assert r3 == RunResult(ChannelState(Some(path), 0), Writes(d), []);
    RunAppend(cfg, IDLE, ab + c, d);
    assert Run(cfg, IDLE, inputs) == Then(r12, r3);
  }

  // ---------------------------------------------------------------------
  // The channel object

  /** One recording channel as the controller holds it: its writer
      (`writer_motion`, ...), its miss counter (`nomotion_frames`, ...) and,
      standing for the writer's file, everything sent to it so far. */
  class Channel {
    const cfg: ChannelConfig
    var writer: Option<string>
    var misses: nat
    var events: seq<SinkEvent>

    function State(): ChannelState
      reads this
    {
      ChannelState(writer, misses)
    }

    /** The writer lifecycle so far is legal and agrees with `writer`, and the
        counter of an open writer is below the threshold. */
    ghost predicate Valid()
      reads this
    {
      cfg.stopFrames >= 1 && Replay(events) == Some(writer.Some?) && MissesBelowThreshold(cfg, State())
    }

    constructor (cfg: ChannelConfig)
      requires cfg.stopFrames >= 1
      ensures Valid() && this.cfg == cfg && State() == IDLE && events == []
    {
      this.cfg := cfg;
      writer := None;
      misses := 0;
      events := [];
    }

    /** One channel block of the frame loop. */
    method Step(enabled: bool, signal: bool, frame: Composite, now: DateTime) returns (line: Option<string>)
      requires Valid() && ValidClock(now)
      modifies this
      ensures Valid()
      ensures var r := ChannelStep(cfg, old(State()), enabled, signal, frame, NewPath(cfg, now));
        State() == r.state && events == old(events) + r.events && line == r.line
    {
      ghost var st, evs := State(), events;
      ghost var r := ChannelStep(cfg, st, enabled, signal, frame, NewPath(cfg, now));
      StepKeepsLifecycle(cfg, st, enabled, signal, frame, NewPath(cfg, now), evs);
      StepKeepsMissesBelowThreshold(cfg, st, enabled, signal, frame, NewPath(cfg, now));
      line := None;
      if enabled {
        if signal {
          if writer.None? {
            var path := NewPath(cfg, now);
            writer := Some(path);
            events := events + [Open(path)];
            line := Some(StartedLine(path));
          }
          misses := 0;
          events := events + [Write(frame)];
          assert events == evs + r.events;
        } else if writer.Some? {
          misses := misses + 1;
          if misses >= cfg.stopFrames {
            events := events + [Release];
            writer := None;
            line := Some(StoppedLine(cfg));
            misses := 0;
          } else {
            assert evs + r.events == evs;
          }
        } else {
          assert evs + r.events == evs;
        }
      } else if writer.Some? {
        events := events + [Release];
        writer := None;
        line := Some(ToggleOffLine(cfg));
      } else {
        assert evs + r.events == evs;
      }
    }

    /** The shutdown release: an open writer is released; the field itself is left as it is. */
    method Close()
      requires Valid()
      modifies this`events
      ensures events == old(events) + (if writer.Some? then [Release] else [])
      ensures Replay(events) == Some(false)
    {
      if writer.Some? {
        ReplaySnoc(events, Release);
        events := events + [Release];
      }
    }
  }
}
