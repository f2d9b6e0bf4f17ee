/** Wall-clock readings and the two `strftime` formats the controller uses.
    The clock itself (`datetime.now()`) is an input of the model. */
module Clock {
  import opened Wrappers
  import opened Text

  datatype DateTime = DateTime(year: nat, month: nat, day: nat, hour: nat, minute: nat, second: nat)

  /** The range of a `datetime` reading, restricted to four-digit years. */
  predicate ValidClock(t: DateTime) {
    match t
    case DateTime(year, month, day, hour, minute, second) =>
      1000 <= year <= 9999 && 1 <= month <= 12 && 1 <= day <= 31 &&
      hour < 24 && minute < 60 && second < 60
  }

  const TIME_SEPARATOR: string := "  TIME "

  /** Three fields with one separator character between them. */
  function Fields3(a: string, sep: char, b: string, c: string): (s: string)
    ensures |s| == |a| + |b| + |c| + 2
  {
    a + [sep] + b + [sep] + c
  }

  /** Where each piece of Fields3 sits. */
  lemma Fields3Slices(a: string, sep: char, b: string, c: string)
    ensures var s := Fields3(a, sep, b, c);
      |s| == |a| + |b| + |c| + 2 && s[..|a|] == a && s[|a|] == sep &&
      s[|a| + 1..|a| + 1 + |b|] == b && s[|a| + 1 + |b|] == sep && s[|a| + 2 + |b|..] == c
  {
    var s := Fields3(a, sep, b, c);
    var front := a + [sep] + b + [sep];
    assert s == front + c;
    assert s[..|front|] == front;
    assert front[..|a|] == a;
    assert front[|a| + 1..|a| + 1 + |b|] == b;
  }

  /** `%d_%m_%Y`. */
  function FileDate(t: DateTime): string
    requires ValidClock(t)
  {
    Fields3(Pad2(t.day), '_', Pad2(t.month), Pad4(t.year))
  }

  /** `%H_%M_%S`. */
  function FileTime(t: DateTime): string
    requires ValidClock(t)
  {
    Fields3(Pad2(t.hour), '_', Pad2(t.minute), Pad2(t.second))
  }

  /** `strftime("%d_%m_%Y  TIME %H_%M_%S")`, the stamp in a recording's file name. */
  function FileStamp(t: DateTime): (s: string)
    requires ValidClock(t)
    ensures |s| == 25
  {
    FileDate(t) + TIME_SEPARATOR + FileTime(t)
  }

  predicate FileStampShape(s: string) {
    |s| == 25 && s[2] == '_' && s[5] == '_' && s[10..17] == TIME_SEPARATOR && s[19] == '_' && s[22] == '_' &&
    AllDigits(s[0..2]) && AllDigits(s[3..5]) && AllDigits(s[6..10]) &&
    AllDigits(s[17..19]) && AllDigits(s[20..22]) && AllDigits(s[23..25])
  }

  /** Recovers the clock reading from a file-name stamp; the inverse of FileStamp. */
  function ParseFileStamp(s: string): Option<DateTime> {
    if !FileStampShape(s) then None
    else
      var t := DateTime(ReadDigits(s[6..10]), ReadDigits(s[3..5]), ReadDigits(s[0..2]),
                        ReadDigits(s[17..19]), ReadDigits(s[20..22]), ReadDigits(s[23..25]));
      if ValidClock(t) then Some(t) else None
  }

  lemma FileStampSlices(t: DateTime)
    requires ValidClock(t)
    ensures var s := FileStamp(t);
      |s| == 25 && s[0..2] == Pad2(t.day) && s[2] == '_' && s[3..5] == Pad2(t.month) && s[5] == '_' &&
      s[6..10] == Pad4(t.year) && s[10..17] == TIME_SEPARATOR && s[17..19] == Pad2(t.hour) && s[19] == '_' &&
      s[20..22] == Pad2(t.minute) && s[22] == '_' && s[23..25] == Pad2(t.second)
  {
    var d, m := FileDate(t), FileTime(t);
    Fields3Slices(Pad2(t.day), '_', Pad2(t.month), Pad4(t.year));
    Fields3Slices(Pad2(t.hour), '_', Pad2(t.minute), Pad2(t.second));
    var s := FileStamp(t);
    SliceWithin(s, 0, 10, d, 0, 2);
    SliceWithin(s, 0, 10, d, 3, 5);
    SliceWithin(s, 0, 10, d, 6, 10);
    SliceWithin(s, 17, 25, m, 17, 19);
    SliceWithin(s, 17, 25, m, 20, 22);
    SliceWithin(s, 17, 25, m, 23, 25);
    assert s[2] == d[2] && s[5] == d[5];
    assert s[19] == m[2] && s[22] == m[5];
  }

  /** Every valid clock reading is recovered from its stamp. */
  lemma FileStampRoundTrip(t: DateTime)
    requires ValidClock(t)
    ensures ParseFileStamp(FileStamp(t)) == Some(t)
  {
    FileStampSlices(t);
    Pad2Reads(t.day);
    Pad2Reads(t.month);
    Pad4Reads(t.year);
    Pad2Reads(t.hour);
    Pad2Reads(t.minute);
    Pad2Reads(t.second);
  }

  /** Every stamp that parses is the stamp of what it parses to. */
  lemma ParseFileStampSound(s: string)
    requires ParseFileStamp(s).Some?
    ensures FileStamp(ParseFileStamp(s).value) == s
  {
    var t := ParseFileStamp(s).value;
    Pad2OfRead(s[0..2]);
    Pad2OfRead(s[3..5]);
    Pad4OfRead(s[6..10]);
    Pad2OfRead(s[17..19]);
    Pad2OfRead(s[20..22]);
    Pad2OfRead(s[23..25]);
    FileStampSlices(t);
    var f := FileStamp(t);
    forall i | 0 <= i < 25 ensures f[i] == s[i] {
      if i < 2 { assert f[i] == f[0..2][i] && s[i] == s[0..2][i]; }
      else if 3 <= i < 5 { assert f[i] == f[3..5][i - 3] && s[i] == s[3..5][i - 3]; }
      else if 6 <= i < 10 { assert f[i] == f[6..10][i - 6] && s[i] == s[6..10][i - 6]; }
      else if 10 <= i < 17 { assert f[i] == f[10..17][i - 10] && s[i] == s[10..17][i - 10]; }
      else if 17 <= i < 19 { assert f[i] == f[17..19][i - 17] && s[i] == s[17..19][i - 17]; }
      else if 20 <= i < 22 { assert f[i] == f[20..22][i - 20] && s[i] == s[20..22][i - 20]; }
      else if 23 <= i < 25 { assert f[i] == f[23..25][i - 23] && s[i] == s[23..25][i - 23]; }
    }
  }

  /** Distinct clock readings give distinct stamps. */
  lemma FileStampInjective(t1: DateTime, t2: DateTime)
    requires ValidClock(t1) && ValidClock(t2) && FileStamp(t1) == FileStamp(t2)
    ensures t1 == t2
  {
    FileStampRoundTrip(t1);
    FileStampRoundTrip(t2);
  }

  /** `strftime("%Y-%m-%d %H:%M:%S")`, the stamp on detection log lines and on the frame. */
  function LogStamp(t: DateTime): (s: string)
    requires ValidClock(t)
  {
    Fields3(Pad4(t.year), '-', Pad2(t.month), Pad2(t.day)) + " " +
    Fields3(Pad2(t.hour), ':', Pad2(t.minute), Pad2(t.second))
  }

  predicate LogStampShape(s: string) {
    |s| == 19 && s[4] == '-' && s[7] == '-' && s[10] == ' ' && s[13] == ':' && s[16] == ':' &&
    AllDigits(s[0..4]) && AllDigits(s[5..7]) && AllDigits(s[8..10]) &&
    AllDigits(s[11..13]) && AllDigits(s[14..16]) && AllDigits(s[17..19])
  }

  /** Recovers the clock reading from a log stamp; the inverse of LogStamp. */
  function ParseLogStamp(s: string): Option<DateTime> {
    if !LogStampShape(s) then None
    else
      var t := DateTime(ReadDigits(s[0..4]), ReadDigits(s[5..7]), ReadDigits(s[8..10]),
                        ReadDigits(s[11..13]), ReadDigits(s[14..16]), ReadDigits(s[17..19]));
      if ValidClock(t) then Some(t) else None
  }

  lemma LogStampSlices(t: DateTime)
    requires ValidClock(t)
    ensures var s := LogStamp(t);
      |s| == 19 && s[0..4] == Pad4(t.year) && s[4] == '-' && s[5..7] == Pad2(t.month) && s[7] == '-' &&
      s[8..10] == Pad2(t.day) && s[10] == ' ' && s[11..13] == Pad2(t.hour) && s[13] == ':' &&
      s[14..16] == Pad2(t.minute) && s[16] == ':' && s[17..19] == Pad2(t.second)
  {
    var d := Fields3(Pad4(t.year), '-', Pad2(t.month), Pad2(t.day));
    var m := Fields3(Pad2(t.hour), ':', Pad2(t.minute), Pad2(t.second));
    Fields3Slices(Pad4(t.year), '-', Pad2(t.month), Pad2(t.day));
    Fields3Slices(Pad2(t.hour), ':', Pad2(t.minute), Pad2(t.second));
    var s := LogStamp(t);
    assert s == d + " " + m;
    SliceWithin(s, 0, 10, d, 0, 4);
    SliceWithin(s, 0, 10, d, 5, 7);
    SliceWithin(s, 0, 10, d, 8, 10);
    SliceWithin(s, 11, 19, m, 11, 13);
    SliceWithin(s, 11, 19, m, 14, 16);
    SliceWithin(s, 11, 19, m, 17, 19);
    assert s[4] == d[4] && s[7] == d[7] && s[10] == ' ';
    assert s[13] == m[2] && s[16] == m[5];
  }

  lemma LogStampRoundTrip(t: DateTime)
    requires ValidClock(t)
    ensures ParseLogStamp(LogStamp(t)) == Some(t)
  {
    LogStampSlices(t);
    Pad4Reads(t.year);
    Pad2Reads(t.month);
    Pad2Reads(t.day);
    Pad2Reads(t.hour);
    Pad2Reads(t.minute);
    Pad2Reads(t.second);
  }

  /** A slice inside a stretch of `s` known to equal `w` is the matching slice of `w`. */
  lemma SliceWithin(s: string, a: int, b: int, w: string, i: int, j: int)
    requires 0 <= a <= i <= j <= b <= |s| && s[a..b] == w
    ensures s[i..j] == w[i - a..j - a]
  {
    assert forall k :: 0 <= k < j - i ==> s[i..j][k] == w[i - a..j - a][k] by {
      forall k | 0 <= k < j - i ensures s[i..j][k] == w[i - a..j - a][k] {
        assert s[i + k] == s[a..b][i + k - a];
      }
    }
  }
}
