/** The alarm latch: a siren that loops while the alarm switch is on and a
    person is in view.  The audio device is modelled by the commands sent to it. */
module Alarm {

  /** `pygame.mixer.music.play(-1)` (after loading the siren) and `pygame.mixer.music.stop()`. */
  datatype AudioCommand = Play | Stop

  datatype AlarmResult = AlarmResult(playing: bool, commands: seq<AudioCommand>)

  /** One tick of the latch.  `soundExists` is whether the siren file is
      present; `playFails` is whether loading or starting it raised. */
  function AlarmStep(playing: bool, alarmOn: bool, persons: bool, soundExists: bool, playFails: bool): (r: AlarmResult)
    ensures |r.commands| <= 1
    ensures Play in r.commands <==> alarmOn && persons && !playing && soundExists
    ensures Stop in r.commands <==> !(alarmOn && persons) && playing
    ensures r.playing <==> alarmOn && persons && (playing || (soundExists && !playFails))
  {
    if alarmOn && persons then
      if playing then AlarmResult(true, [])
      else if soundExists then AlarmResult(!playFails, [Play])
      else AlarmResult(false, [])
    else if playing then AlarmResult(false, [Stop])
    else AlarmResult(false, [])
  }

  /** The latch is set only while the last command sent to the device was Play. */
  predicate LatchAgrees(playing: bool, sent: seq<AudioCommand>) {
    playing ==> |sent| > 0 && sent[|sent| - 1] == Play
  }

  lemma AlarmStepKeepsLatch(playing: bool, sent: seq<AudioCommand>, alarmOn: bool, persons: bool, soundExists: bool, playFails: bool)
    requires LatchAgrees(playing, sent)
    ensures var r := AlarmStep(playing, alarmOn, persons, soundExists, playFails);
      LatchAgrees(r.playing, sent + r.commands)
  {
  }

  datatype AlarmInput = AlarmInput(alarmOn: bool, persons: bool, soundExists: bool, playFails: bool)

  /** The latch over a sequence of ticks, from silence with nothing sent. */
  function AlarmRun(inputs: seq<AlarmInput>): AlarmResult {
    if inputs == [] then AlarmResult(false, [])
    else
      var prev := AlarmRun(inputs[..|inputs| - 1]);
      var i := inputs[|inputs| - 1];
      var r := AlarmStep(prev.playing, i.alarmOn, i.persons, i.soundExists, i.playFails);
      AlarmResult(r.playing, prev.commands + r.commands)
  }

  /** Play, Stop, Play, Stop, ... */
  predicate Alternating(sent: seq<AudioCommand>) {
    forall i :: 0 <= i < |sent| ==> sent[i] == if i % 2 == 0 then Play else Stop
  }

  /** While the device never fails, the device sees Play and Stop strictly in
      turn (no second Play while the siren loops, no Stop while silent), and
      the latch is set exactly when a Play is outstanding. */
  lemma {:induction false} AlarmRunAlternates(inputs: seq<AlarmInput>)
    requires forall i :: 0 <= i < |inputs| ==> !inputs[i].playFails
    ensures var r := AlarmRun(inputs);
      Alternating(r.commands) && (r.playing <==> |r.commands| % 2 == 1)
  {
    if inputs != [] {
      var init := inputs[..|inputs| - 1];
      AlarmRunAlternates(init);
      var prev := AlarmRun(init);
      var i := inputs[|inputs| - 1];
      var r := AlarmStep(prev.playing, i.alarmOn, i.persons, i.soundExists, i.playFails);
      var all := prev.commands + r.commands;
      forall k | 0 <= k < |all| ensures all[k] == if k % 2 == 0 then Play else Stop {
        if k >= |prev.commands| {
          assert r.commands[k - |prev.commands|] in r.commands;
        }
      }
    }
  }
}
