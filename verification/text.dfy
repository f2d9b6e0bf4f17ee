/** Decimal digits: the zero-padded fields `strftime` produces and the
    plain decimal rendering of `len(...)` in log lines. */
module Text {

  predicate IsDigit(c: char) {
    '0' <= c <= '9'
  }

  predicate AllDigits(s: string) {
    forall i :: 0 <= i < |s| ==> IsDigit(s[i])
  }

  function DigitChar(d: nat): (c: char)
    requires d < 10
    ensures IsDigit(c)
  {
    ('0' as int + d) as char
  }

  function DigitValue(c: char): (d: nat)
    requires IsDigit(c)
    ensures d < 10 && DigitChar(d) == c
  {
    c as int - '0' as int
  }

  /** The number a string of decimal digits denotes (most significant first). */
  function ReadDigits(s: string): nat
    requires AllDigits(s)
  {
    if s == [] then 0 else ReadDigits(s[..|s| - 1]) * 10 + DigitValue(s[|s| - 1])
  }

  lemma ReadTwo(s: string)
    requires |s| == 2 && AllDigits(s)
    ensures ReadDigits(s) == DigitValue(s[0]) * 10 + DigitValue(s[1])
  {
    assert s[..1][..0] == [];
    assert ReadDigits(s[..1]) == DigitValue(s[0]);
  }

  /** Reading a string that ends in two more digits. */
  lemma ReadAppendTwo(a: string, b: string)
    requires AllDigits(a) && |b| == 2 && AllDigits(b)
    ensures AllDigits(a + b) && ReadDigits(a + b) == ReadDigits(a) * 100 + ReadDigits(b)
  {
    var s := a + b;
    assert s[..|s| - 1][..|a|] == a;
    assert s[..|s| - 1] == a + [b[0]];
    ReadTwo(b);
  }

  lemma SplitHundred(a: nat, b: nat)
    requires b < 100
    ensures (a * 100 + b) / 100 == a && (a * 100 + b) % 100 == b
  {
  }

  /** Two digits, zero-padded, as `%d`, `%m`, `%H`, `%M` and `%S` print them. */
  function Pad2(n: nat): (s: string)
    requires n < 100
    ensures |s| == 2
  {
    [DigitChar(n / 10), DigitChar(n % 10)]
  }

  /** Pad2 writes only digits, and they denote `n`. */
  lemma Pad2Reads(n: nat)
    requires n < 100
    ensures AllDigits(Pad2(n)) && ReadDigits(Pad2(n)) == n
  {
    ReadTwo(Pad2(n));
  }

  /** Four digits, zero-padded, as `%Y` prints a year from 1000 to 9999. */
  function Pad4(n: nat): (s: string)
    requires n < 10000
    ensures |s| == 4
  {
    Pad2(n / 100) + Pad2(n % 100)
  }

  /** Pad4 writes only digits, and they denote `n`. */
  lemma Pad4Reads(n: nat)
    requires n < 10000
    ensures AllDigits(Pad4(n)) && ReadDigits(Pad4(n)) == n
  {
    Pad2Reads(n / 100);
    Pad2Reads(n % 100);
    ReadAppendTwo(Pad2(n / 100), Pad2(n % 100));
  }

  /** Python's `str(n)` for a non-negative integer: no leading zero. */
  function NatToString(n: nat): (s: string)
    ensures |s| >= 1
  {
    if n < 10 then [DigitChar(n)] else NatToString(n / 10) + [DigitChar(n % 10)]
  }

  /** NatToString writes only digits, denoting `n`, with no leading zero. */
  lemma {:induction false} NatToStringReads(n: nat)
    ensures AllDigits(NatToString(n)) && ReadDigits(NatToString(n)) == n
    ensures NatToString(n)[0] == '0' ==> n == 0
  {
    if n >= 10 {
      NatToStringReads(n / 10);
      var s := NatToString(n);
      assert s[..|s| - 1] == NatToString(n / 10);
      assert s[0] == NatToString(n / 10)[0];
    }
  }

  /** Pad2 is the only two-digit rendering: every two-digit string is Pad2 of the number it denotes. */
  lemma Pad2OfRead(s: string)
    requires |s| == 2 && AllDigits(s)
    ensures ReadDigits(s) < 100 && Pad2(ReadDigits(s)) == s
  {
    ReadTwo(s);
  }

  /** Pad4 is the only four-digit rendering. */
  lemma Pad4OfRead(s: string)
    requires |s| == 4 && AllDigits(s)
    ensures ReadDigits(s) < 10000 && Pad4(ReadDigits(s)) == s
  {
    var hi, lo := s[..2], s[2..];
    assert s == hi + lo;
    ReadAppendTwo(hi, lo);
    Pad2OfRead(hi);
    Pad2OfRead(lo);
    SplitHundred(ReadDigits(hi), ReadDigits(lo));
  }

  /** ASCII lower-casing.  For the target word "person" it agrees with
      Python's `str.lower`: no other character lower-cases to one of
      `p`, `e`, `r`, `s`, `o`, `n`. */
  function LowerChar(c: char): (r: char)
    ensures 'A' <= c <= 'Z' ==> r as int == c as int + 32
    ensures !('A' <= c <= 'Z') ==> r == c
  {
    if 'A' <= c <= 'Z' then (c as int + 32) as char else c
  }

  function Lower(s: string): (r: string)
    ensures |r| == |s| && forall i :: 0 <= i < |s| ==> r[i] == LowerChar(s[i])
  {
    seq(|s|, i requires 0 <= i < |s| => LowerChar(s[i]))
  }
}
