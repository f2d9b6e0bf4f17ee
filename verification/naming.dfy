/** The strings the controller builds from its inputs: recording paths
    (`timestamp_filename`) and the switch-status line (`_on_switch_change`). */
module Naming {
  import opened Wrappers
  import opened Clock

  /** `os.path.join(folder, name)` with the POSIX separator: an absolute
      `name` replaces the folder, and no separator is doubled. */
  function Join(folder: string, name: string): string {
    if name != [] && name[0] == '/' then name
    else if folder == [] || folder[|folder| - 1] == '/' then folder + name
    else folder + "/" + name
  }

  /** The joined path always ends with `name`; a relative name under a folder
      without a trailing separator is placed after exactly one `/`. */
  lemma JoinEndsWithName(folder: string, name: string)
    ensures var r := Join(folder, name);
      |r| >= |name| && r[|r| - |name|..] == name &&
      ((name == [] || name[0] != '/') && folder != [] && folder[|folder| - 1] != '/' ==> r == folder + "/" + name)
  {
    var r := Join(folder, name);
    if !(name != [] && name[0] == '/') {
      var sep := if folder == [] || folder[|folder| - 1] == '/' then folder else folder + "/";
      assert r == sep + name;
      assert r[|sep|..] == name;
    }
  }

  /** `timestamp_filename(prefix, folder)` with the clock reading `now` passed in. */
  function TimestampFilename(prefix: string, folder: string, now: DateTime): (path: string)
    requires ValidClock(now)
  {
    Join(folder, prefix + "_" + FileStamp(now) + ".avi")
  }

  /** Reads the clock back from a recording path: the 25 characters before
      `.avi`, preceded by the `_` that ends the prefix. */
  function ClockOfPath(path: string): Option<DateTime> {
    if |path| >= 30 && path[|path| - 4..] == ".avi" && path[|path| - 30] == '_' then
      ParseFileStamp(path[|path| - 29..|path| - 4])
    else None
  }

  /** The last 30 characters of a recording's file name. */
  lemma NameTail(head: string, stamp: string)
    requires |stamp| == 25 && |head| >= 1 && head[|head| - 1] == '_'
    ensures var name := head + stamp + ".avi"; var n := |name|;
      n >= 30 && name[n - 4..] == ".avi" && name[n - 30] == '_' && name[n - 29..n - 4] == stamp
  {
    var name := head + stamp + ".avi";
    assert name[|head|..|head| + 25] == stamp;
    assert name[|head| - 1] == '_';
  }

  /** What holds of the tail of a name holds of the tail of any path ending with it. */
  lemma TailOfSuffix(path: string, name: string, stamp: string)
    requires |path| >= |name| >= 30 && path[|path| - |name|..] == name
    requires name[|name| - 4..] == ".avi" && name[|name| - 30] == '_' && name[|name| - 29..|name| - 4] == stamp
    ensures |path| >= 30 && path[|path| - 4..] == ".avi" && path[|path| - 30] == '_' &&
      path[|path| - 29..|path| - 4] == stamp
  {
    var n, p := |name|, |path|;
    SliceWithin(path, p - n, p, name, p - 29, p - 4);
    SliceWithin(path, p - n, p, name, p - 4, p);
    assert path[p - 30] == path[p - n..][n - 30];
  }

  /** Wherever `name` lands after the join, its last 30 characters end the path. */
  lemma JoinedTail(folder: string, head: string, stamp: string)
    requires |stamp| == 25 && |head| >= 1 && head[|head| - 1] == '_'
    ensures var path := Join(folder, head + stamp + ".avi");
      |path| >= 30 && path[|path| - 4..] == ".avi" && path[|path| - 30] == '_' &&
      path[|path| - 29..|path| - 4] == stamp
  {
    var name := head + stamp + ".avi";
    JoinEndsWithName(folder, name);
    NameTail(head, stamp);
    TailOfSuffix(Join(folder, name), name, stamp);
  }

  lemma ClockOfTail(path: string, stamp: string)
    requires |path| >= 30 && path[|path| - 4..] == ".avi" && path[|path| - 30] == '_'
    requires path[|path| - 29..|path| - 4] == stamp
    ensures ClockOfPath(path) == ParseFileStamp(stamp)
  {
  }

  /** The stamp sits just before the `.avi` extension, whatever the folder
      and prefix, and the clock reading can be read back from it. */
  lemma FilenameRecoversClock(prefix: string, folder: string, now: DateTime)
    requires ValidClock(now)
    ensures var path := TimestampFilename(prefix, folder, now);
      |path| >= 30 && path[|path| - 4..] == ".avi" && path[|path| - 30] == '_' &&
      ClockOfPath(path) == Some(now)
  {
    var path := TimestampFilename(prefix, folder, now);
    JoinedTail(folder, prefix + "_", FileStamp(now));
    ClockOfTail(path, FileStamp(now));
    FileStampRoundTrip(now);
  }

  /** Two recordings of one channel get the same path only when they start
      within the same second. */
  lemma FilenameInjective(prefix: string, folder: string, t1: DateTime, t2: DateTime)
    requires ValidClock(t1) && ValidClock(t2)
    requires TimestampFilename(prefix, folder, t1) == TimestampFilename(prefix, folder, t2)
    ensures t1 == t2
  {
    FilenameRecoversClock(prefix, folder, t1);
    FilenameRecoversClock(prefix, folder, t2);
  }

  /** The four user switches, as the status line reports them. */
  datatype Switches = Switches(motion: bool, human: bool, face: bool, alarm: bool)

  function OnOff(b: bool): string {
    if b then "ON" else "OFF"
  }

  /** The line `_on_switch_change` logs after any switch flips. */
  function StatusLine(sw: Switches): string {
    Flag("Motion=", sw.motion) + Flag(" | Human=", sw.human) +
    Flag(" | Face=", sw.face) + Flag(" | Alarm=", sw.alarm)
  }

  /** One `Name=ON` / `Name=OFF` field of the status line. */
  function Flag(key: string, b: bool): string {
    key + OnOff(b)
  }

  /** Reads `key` followed by `ON` or `OFF` off the front of `s`. */
  function ReadFlag(key: string, s: string): Option<(bool, string)> {
    if |s| >= |key| + 2 && s[..|key|] == key then
      var rest := s[|key|..];
      if rest[..2] == "ON" then Some((true, rest[2..]))
      else if |rest| >= 3 && rest[..3] == "OFF" then Some((false, rest[3..]))
      else None
    else None
  }

  /** Recovers the switch positions from a status line. */
  function ParseStatus(s: string): Option<Switches> {
    match ReadFlag("Motion=", s)
    case None => None
    case Some((m, r1)) =>
      match ReadFlag(" | Human=", r1)
      case None => None
      case Some((h, r2)) =>
        match ReadFlag(" | Face=", r2)
        case None => None
        case Some((f, r3)) =>
          match ReadFlag(" | Alarm=", r3)
          case None => None
          case Some((a, r4)) => if r4 == [] then Some(Switches(m, h, f, a)) else None
  }

  lemma ReadFlagOf(key: string, b: bool, tail: string)
    ensures ReadFlag(key, Flag(key, b) + tail) == Some((b, tail))
  {
    var s := Flag(key, b) + tail;
    assert s == key + (OnOff(b) + tail);
    assert s[..|key|] == key;
    assert s[|key|..] == OnOff(b) + tail;
    if b {
      assert (OnOff(b) + tail)[..2] == "ON";
      assert (OnOff(b) + tail)[2..] == tail;
    } else {
      assert (OnOff(b) + tail)[..2] == "OF";
      assert (OnOff(b) + tail)[..3] == "OFF";
      assert (OnOff(b) + tail)[3..] == tail;
    }
  }

  /** The status line determines all four switch positions. */
  lemma StatusRoundTrip(sw: Switches)
    ensures ParseStatus(StatusLine(sw)) == Some(sw)
  {
    var fm, fh, ff, fa := Flag("Motion=", sw.motion), Flag(" | Human=", sw.human),
                          Flag(" | Face=", sw.face), Flag(" | Alarm=", sw.alarm);
    var r4: string := [];
    var r3 := fa + r4;
    var r2 := ff + r3;
    var r1 := fh + r2;
    assert r3 == fa;
    SeqAssoc(fm + fh, ff, fa);
    SeqAssoc(fm, fh, ff + fa);
    assert StatusLine(sw) == fm + r1;
    ReadFlagOf("Motion=", sw.motion, r1);
    ReadFlagOf(" | Human=", sw.human, r2);
    ReadFlagOf(" | Face=", sw.face, r3);
    ReadFlagOf(" | Alarm=", sw.alarm, r4);
  }

  /** Distinct switch positions give distinct status lines. */
  lemma StatusInjective(a: Switches, b: Switches)
    requires StatusLine(a) == StatusLine(b)
    ensures a == b
  {
    StatusRoundTrip(a);
    StatusRoundTrip(b);
  }
}
